/** The cleaning of SEC company facts into fundamental-data rows:
    `normalize_and_dedupe_records`, its filter helpers, the row building of
    `download_one_ticker_fundamental_data` and the ticker lookup of
    `_cik_from_ticker`, all in data_download/input/sec_edgar_fundamental_single.py. */
module SecFacts {
  import opened Common
  import opened Text

  // ------------------------------------------------------------------
  // Facts and the filter
  // ------------------------------------------------------------------

  /** A date field of a fact: its text, and the day `date.fromisoformat(text[:10])`
      denotes (`None` when that raises). */
  datatype Stamp = Stamp(text: string, day: Option<Date>)

  /** One element of a unit's fact list. A field that is missing or JSON
      `null` is `None`; `val` is the reported number. */
  datatype Fact = Fact(form: Option<string>, fp: Option<string>, start: Option<Stamp>, end: Option<Stamp>,
                       filed: Option<string>, val: Option<real>)

  const AllowedForms: set<string> := {"10-Q", "10-K", "10-Q/A", "10-K/A"}
  const AllowedFp: set<string> := {"FY", "Q1", "Q2", "Q3", "Q4"}
  const Quarters: set<string> := {"Q1", "Q2", "Q3", "Q4"}

  /** `record.get(field) in s`: an absent field is in no set. */
  predicate Among(x: Option<string>, s: set<string>) {
    x.Some? && x.value in s
  }

  /** `_period_type_from_fp`. */
  function PeriodType(fp: string): (r: Result<string>)
    ensures r.Ok? <==> fp in AllowedFp
    ensures r == Ok("Annual") <==> fp == "FY"
    ensures r == Ok("Quarterly") <==> fp in Quarters
    ensures r.Err? ==> r.error == ValueError
  {
    if fp == "FY" then Ok("Annual")
    else if fp in Quarters then Ok("Quarterly")
    else Err(ValueError)
  }

  /** `_is_duration_record`: both ends of the period are present. */
  predicate IsDuration(f: Fact) {
    f.start.Some? && f.end.Some?
  }

  /** `_duration_days`: the length of the period in days; a date that does
      not parse raises `ValueError`. */
  function DurationDays(f: Fact): (r: Result<int>)
    requires IsDuration(f)
    ensures r.Ok? <==> f.start.value.day.Some? && f.end.value.day.Some?
    ensures r.Ok? ==> f.start.value.day.value + r.value == f.end.value.day.value
    ensures r.Err? ==> r.error == ValueError
  {
    if f.start.value.day.None? || f.end.value.day.None? then Err(ValueError)
    else Ok(f.end.value.day.value - f.start.value.day.value)
  }

  /** `_keep_record`: annual facts stay; a quarterly fact that spans a
      period stays only when the period is a single quarter (80 to 110
      days), which drops the cumulative year-to-date figures. */
  function KeepRecord(f: Fact): (r: Result<bool>)
    ensures !Among(f.fp, AllowedFp) ==> r == Ok(false)
    ensures f.fp == Some("FY") ==> r == Ok(true)
    ensures Among(f.fp, Quarters) && !IsDuration(f) ==> r == Ok(true)
    ensures Among(f.fp, Quarters) && IsDuration(f) ==>
      (r == Ok(true) <==> DurationDays(f).Ok? && 80 <= DurationDays(f).value <= 110)
    ensures r.Err? <==> Among(f.fp, Quarters) && IsDuration(f) && DurationDays(f).Err?
    ensures r.Err? ==> r.error == ValueError
  {
    if !Among(f.fp, AllowedFp) then Ok(false)
    else if f.fp.value == "FY" then Ok(true)
    else if IsDuration(f) then
      match DurationDays(f)
      case Err(e) => Err(e)
      case Ok(d) => Ok(80 <= d <= 110)
    else Ok(true)
  }

  /** The four tests a fact must pass, in the order the loop applies them:
      an allowed form, an allowed fiscal period, `_keep_record`, a value. */
  function Passes(f: Fact): (r: Result<bool>)
    ensures r == Ok(true) <==>
      (Among(f.form, AllowedForms) && Among(f.fp, AllowedFp) && KeepRecord(f) == Ok(true) && f.val.Some?)
    ensures r.Err? <==> Among(f.form, AllowedForms) && KeepRecord(f).Err?
    ensures r.Err? ==> r.error == ValueError
  {
    if !Among(f.form, AllowedForms) then Ok(false)
    else if !Among(f.fp, AllowedFp) then Ok(false)
    else
      match KeepRecord(f)
      case Err(e) => Err(e)
      case Ok(keep) => Ok(keep && f.val.Some?)
  }

  /** The `filtered` list: the facts that pass, in input order; the first
      fact whose dates do not parse raises. */
  function Filtered(records: seq<Fact>): (r: Result<seq<Fact>>)
    ensures r.Ok? <==> forall i :: 0 <= i < |records| ==> Passes(records[i]).Ok?
    ensures r.Err? ==> r.error == ValueError
  {
    if records == [] then Ok([])
    else
      var n := |records|;
      var init := records[..n - 1];
      assert forall i :: 0 <= i < n - 1 ==> init[i] == records[i];
      match Filtered(init)
      case Err(e) => Err(e)
      case Ok(kept) =>
        match Passes(records[n - 1])
        case Err(e) => Err(e)
        case Ok(p) => Ok(if p then kept + [records[n - 1]] else kept)
  }

  /** The kept facts are exactly the input facts that pass, none added. */
  lemma {:induction false} FilteredMembers(records: seq<Fact>)
    requires Filtered(records).Ok?
    ensures |Filtered(records).value| <= |records|
    ensures forall x :: x in Filtered(records).value <==> x in records && Passes(x) == Ok(true)
  {
    if records != [] {
      var n := |records|;
      var init := records[..n - 1];
      assert forall i :: 0 <= i < n - 1 ==> init[i] == records[i];
      FilteredMembers(init);
      assert records == init + [records[n - 1]];
    }
  }

  lemma {:induction false} FilteredRaises(records: seq<Fact>, i: nat)
    requires i < |records| && Filtered(records[..i]).Ok? && Passes(records[i]).Err?
    ensures Filtered(records).Err?
  {
    assert !(forall j :: 0 <= j < |records| ==> Passes(records[j]).Ok?);
  }

  // ------------------------------------------------------------------
  // Latest-filed de-duplication
  // ------------------------------------------------------------------

  /** The dict key `(metric_name, end, fp)`: the raw `end` text, not its date. */
  datatype Key = Key(metric: string, end: Option<string>, fp: Option<string>)

  function KeyOf(metric: string, f: Fact): Key {
    Key(metric, if f.end.Some? then Some(f.end.value.text) else None, f.fp)
  }

  function KeysOf(metric: string, fs: seq<Fact>): (ks: seq<Key>)
    ensures |ks| == |fs| && forall i :: 0 <= i < |fs| ==> ks[i] == KeyOf(metric, fs[i])
  {
    seq(|fs|, i requires 0 <= i < |fs| => KeyOf(metric, fs[i]))
  }

  /** `record.get("filed") or "0000-00-00"`: an absent or empty filing date
      sorts before every real one. */
  function FiledOf(f: Fact): string {
    if f.filed.Some? && f.filed.value != "" then f.filed.value else "0000-00-00"
  }

  /** The `best` dict: its keys in insertion order and its entries. */
  datatype Best = Best(keys: seq<Key>, m: map<Key, Fact>)

  ghost predicate WellFormed(b: Best) {
    forall k :: k in b.m <==> k in b.keys
  }

  /** One step of the loop over `filtered`: a new key is inserted at the
      end; an existing entry is overwritten, in place, only by a strictly
      later filing. */
  function Put(b: Best, metric: string, f: Fact): Best {
    var k := KeyOf(metric, f);
    if k !in b.m then Best(b.keys + [k], b.m[k := f])
    else if Less(FiledOf(b.m[k]), FiledOf(f)) then Best(b.keys, b.m[k := f])
    else b
  }

  /** The `best` dict after the loop over `fs`; its keys are those of `fs`
      in order of first occurrence. */
  function BestOf(fs: seq<Fact>, metric: string): (b: Best)
    ensures WellFormed(b)
  {
    if fs == [] then Best([], map[])
    else Put(BestOf(fs[..|fs| - 1], metric), metric, fs[|fs| - 1])
  }

  /** The keys of `best` are those of the input in order of first occurrence. */
  lemma {:induction false} BestKeys(fs: seq<Fact>, metric: string)
    ensures BestOf(fs, metric).keys == Dedup(KeysOf(metric, fs))
    decreases |fs|
  {
    if fs != [] {
      var n := |fs|;
      var init := fs[..n - 1];
      var ks := KeysOf(metric, fs);
      var k := KeyOf(metric, fs[n - 1]);
      assert ks[..n - 1] == KeysOf(metric, init);
      BestKeys(init, metric);
      var b0 := BestOf(init, metric);
      assert BestOf(fs, metric) == Put(b0, metric, fs[n - 1]);
      assert Dedup(ks) == if k in Dedup(KeysOf(metric, init)) then b0.keys else b0.keys + [k];
      assert k in b0.m <==> k in b0.keys;
    }
  }

  /** `list(best.values())`. */
  function Values(b: Best): (vs: seq<Fact>)
    requires WellFormed(b)
    ensures |vs| == |b.keys|
  {
    seq(|b.keys|, i requires 0 <= i < |b.keys| => b.m[b.keys[i]])
  }

  function Dedupe(fs: seq<Fact>, metric: string): seq<Fact> {
    Values(BestOf(fs, metric))
  }

  /** `normalize_and_dedupe_records`. */
  function Normalized(records: seq<Fact>, metric: string): Result<seq<Fact>> {
    match Filtered(records)
    case Err(e) => Err(e)
    case Ok(fs) => Ok(Dedupe(fs, metric))
  }

  /** Every earlier fact with the same key than `fs[i]` was filed strictly earlier. */
  predicate EarlierOlder(fs: seq<Fact>, metric: string, i: int)
    requires 0 <= i < |fs|
  {
    forall j :: 0 <= j < i && KeyOf(metric, fs[j]) == KeyOf(metric, fs[i]) ==> Less(FiledOf(fs[j]), FiledOf(fs[i]))
  }

  /** `f` occurs in `fs` at a position before which no fact of its key was
      filed as late: among the latest filings of a key, the first one seen. */
  predicate FirstLatest(fs: seq<Fact>, metric: string, f: Fact) {
    exists i :: 0 <= i < |fs| && fs[i] == f && EarlierOlder(fs, metric, i)
  }

  /** Some fact of `out` has the key of `f` and was not filed earlier than `f`. */
  predicate Survives(out: seq<Fact>, metric: string, f: Fact) {
    exists j :: 0 <= j < |out| && KeyOf(metric, out[j]) == KeyOf(metric, f) && !Less(FiledOf(out[j]), FiledOf(f))
  }

  /** `c <= a < b` gives `c < b`. */
  lemma {:induction false} BelowLater(a: string, b: string, c: string)
    requires !Less(a, c) && Less(a, b)
    ensures Less(c, b) && !Less(b, c)
  {
    LessTrichotomy(a, c);
    if a != c {
      LessTransitive(c, a, b);
    }
    LessTrichotomy(c, b);
  }

  lemma {:induction false} FirstLatestExtend(fs: seq<Fact>, metric: string, x: Fact, f: Fact)
    requires FirstLatest(fs, metric, f)
    ensures FirstLatest(fs + [x], metric, f)
  {
    var i :| 0 <= i < |fs| && fs[i] == f && EarlierOlder(fs, metric, i);
    var fs' := fs + [x];
    assert forall j :: 0 <= j <= i ==> fs'[j] == fs[j];
    assert EarlierOlder(fs', metric, i);
  }

  /** Each entry of `best` is a fact of the input filed under its own key. */
  lemma {:induction false} BestEntries(fs: seq<Fact>, metric: string)
    ensures forall k :: k in BestOf(fs, metric).m ==>
      (BestOf(fs, metric).m[k] in fs && KeyOf(metric, BestOf(fs, metric).m[k]) == k)
    decreases |fs|
  {
    if fs != [] {
      var n := |fs|;
      var init := fs[..n - 1];
      var x := fs[n - 1];
      BestEntries(init, metric);
      var b0 := BestOf(init, metric);
      var b := BestOf(fs, metric);
      assert b == Put(b0, metric, x);
      assert fs == init + [x];
      forall k' | k' in b.m
        ensures b.m[k'] in fs && KeyOf(metric, b.m[k']) == k'
      {
        if b.m[k'] != x || k' != KeyOf(metric, x) {
          assert b.m[k'] == b0.m[k'];
        }
      }
    }
  }

  /** Every key of the input has an entry. */
  lemma {:induction false} BestCovers(fs: seq<Fact>, metric: string)
    ensures forall i :: 0 <= i < |fs| ==> KeyOf(metric, fs[i]) in BestOf(fs, metric).m
  {
    BestKeys(fs, metric);
    forall i | 0 <= i < |fs|
      ensures KeyOf(metric, fs[i]) in BestOf(fs, metric).m
    {
      assert KeysOf(metric, fs)[i] == KeyOf(metric, fs[i]);
      assert KeyOf(metric, fs[i]) in Dedup(KeysOf(metric, fs));
    }
  }

  /** The entry of `f`'s key was not filed earlier than `f`. */
  predicate NotLater(b: Best, metric: string, f: Fact) {
    KeyOf(metric, f) in b.m && !Less(FiledOf(b.m[KeyOf(metric, f)]), FiledOf(f))
  }

  /** No fact of a key was filed later than the key's entry. */
  lemma {:induction false} BestLatest(fs: seq<Fact>, metric: string)
    ensures forall i :: 0 <= i < |fs| ==> NotLater(BestOf(fs, metric), metric, fs[i])
    decreases |fs|
  {
    if fs != [] {
      var n := |fs|;
      var init := fs[..n - 1];
      var x := fs[n - 1];
      BestLatest(init, metric);
      var b0 := BestOf(init, metric);
      var b := BestOf(fs, metric);
      assert b == Put(b0, metric, x);
      var k := KeyOf(metric, x);
      forall i | 0 <= i < n
        ensures NotLater(b, metric, fs[i])
      {
        if i == n - 1 {
          if b.m[k] == x {
            LessIrreflexive(FiledOf(x));
          }
        } else {
          assert fs[i] == init[i];
          assert NotLater(b0, metric, init[i]);
          if KeyOf(metric, fs[i]) == k && Less(FiledOf(b0.m[k]), FiledOf(x)) {
            BelowLater(FiledOf(b0.m[k]), FiledOf(x), FiledOf(fs[i]));
          }
        }
      }
    }
  }

  /** A later filing that replaces the entry is the first of the latest. */
  lemma {:induction false} FirstAtReplaced(init: seq<Fact>, metric: string, x: Fact)
    requires KeyOf(metric, x) in BestOf(init, metric).m
    requires Less(FiledOf(BestOf(init, metric).m[KeyOf(metric, x)]), FiledOf(x))
    ensures EarlierOlder(init + [x], metric, |init|)
  {
    var fs := init + [x];
    var b0 := BestOf(init, metric);
    var k := KeyOf(metric, x);
    BestLatest(init, metric);
    forall j | 0 <= j < |init| && KeyOf(metric, fs[j]) == k
      ensures Less(FiledOf(fs[j]), FiledOf(x))
    {
      assert fs[j] == init[j];
      assert NotLater(b0, metric, init[j]);
      BelowLater(FiledOf(b0.m[k]), FiledOf(x), FiledOf(fs[j]));
    }
  }

  /** A fact with a new key is the first of its key. */
  lemma {:induction false} FirstAtNew(init: seq<Fact>, metric: string, x: Fact)
    requires KeyOf(metric, x) !in BestOf(init, metric).m
    ensures EarlierOlder(init + [x], metric, |init|)
  {
    var fs := init + [x];
    BestCovers(init, metric);
    forall j | 0 <= j < |init|
      ensures KeyOf(metric, fs[j]) != KeyOf(metric, x)
    {
      assert fs[j] == init[j];
    }
  }

  /** The entry of key `k` is the first of the latest filings of `k`. */
  lemma {:induction false} BestFirstAt(fs: seq<Fact>, metric: string, k: Key)
    requires k in BestOf(fs, metric).m
    ensures FirstLatest(fs, metric, BestOf(fs, metric).m[k])
    decreases |fs|
  {
    var n := |fs|;
    var init := fs[..n - 1];
    var x := fs[n - 1];
    var b0 := BestOf(init, metric);
    assert BestOf(fs, metric) == Put(b0, metric, x);
    assert fs == init + [x];
    if k != KeyOf(metric, x) || (k in b0.m && !Less(FiledOf(b0.m[k]), FiledOf(x))) {
      assert k in b0.m && BestOf(fs, metric).m[k] == b0.m[k];
      BestFirstAt(init, metric, k);
      FirstLatestExtend(init, metric, x, b0.m[k]);
    } else {
      assert BestOf(fs, metric).m[k] == x;
      if k in b0.m {
        FirstAtReplaced(init, metric, x);
      } else {
        FirstAtNew(init, metric, x);
      }
      assert fs[n - 1] == x;
    }
  }

  /** Per `(metric, end, fp)` exactly one fact survives, the keys in order of
      their first occurrence, and every survivor is a fact of the input. */
  lemma {:induction false} DedupeKeys(fs: seq<Fact>, metric: string)
    ensures var out := Dedupe(fs, metric);
      (forall j :: 0 <= j < |out| ==> out[j] in fs)
      && KeysOf(metric, out) == Dedup(KeysOf(metric, fs))
  {
    var b := BestOf(fs, metric);
    var out := Dedupe(fs, metric);
    BestEntries(fs, metric);
    BestKeys(fs, metric);
    assert forall j :: 0 <= j < |out| ==> out[j] == b.m[b.keys[j]];
    assert KeysOf(metric, out) == b.keys;
  }

  /** No fact of the input was filed later than the survivor of its key. */
  lemma {:induction false} DedupeLatest(fs: seq<Fact>, metric: string)
    ensures forall i :: 0 <= i < |fs| ==> Survives(Dedupe(fs, metric), metric, fs[i])
  {
    var b := BestOf(fs, metric);
    var out := Dedupe(fs, metric);
    BestLatest(fs, metric);
    forall i | 0 <= i < |fs|
      ensures Survives(out, metric, fs[i])
    {
      var k := KeyOf(metric, fs[i]);
      assert NotLater(b, metric, fs[i]);
      var j :| 0 <= j < |b.keys| && b.keys[j] == k;
      assert out[j] == b.m[k];
      BestEntries(fs, metric);
    }
  }

  /** On equal filing dates the first fact seen survives. */
  lemma {:induction false} DedupeFirst(fs: seq<Fact>, metric: string)
    ensures forall j :: 0 <= j < |Dedupe(fs, metric)| ==> FirstLatest(fs, metric, Dedupe(fs, metric)[j])
  {
    var b := BestOf(fs, metric);
    var out := Dedupe(fs, metric);
    forall j | 0 <= j < |out|
      ensures FirstLatest(fs, metric, out[j])
    {
      assert out[j] == b.m[b.keys[j]];
      BestFirstAt(fs, metric, b.keys[j]);
    }
  }

  /** The survivors have distinct keys. */
  lemma {:induction false} DedupeUniqueKeys(fs: seq<Fact>, metric: string)
    ensures var out := Dedupe(fs, metric);
      forall j1, j2 :: 0 <= j1 < j2 < |out| ==> KeyOf(metric, out[j1]) != KeyOf(metric, out[j2])
  {
    DedupeKeys(fs, metric);
    var out := Dedupe(fs, metric);
    assert Distinct(KeysOf(metric, out));
  }

  /** A normalised fact passed every filter, so its fiscal period maps to a
      period type and it carries a value. */
  lemma {:induction false} NormalizedPasses(records: seq<Fact>, metric: string, f: Fact)
    requires Normalized(records, metric).Ok? && f in Normalized(records, metric).value
    ensures f in records && Among(f.form, AllowedForms) && Among(f.fp, AllowedFp) && f.val.Some?
    ensures PeriodType(f.fp.value).Ok?
  {
    var fs := Filtered(records).value;
    DedupeKeys(fs, metric);
    FilteredMembers(records);
    var j :| 0 <= j < |Dedupe(fs, metric)| && Dedupe(fs, metric)[j] == f;
    assert f in fs;
  }

  /** The loops of `normalize_and_dedupe_records`: `filtered` is appended
      to, then `best` is filled in place. */
  method NormalizeAndDedupe(records: seq<Fact>, metric: string) returns (r: Result<seq<Fact>>)
    ensures r == Normalized(records, metric)
  {
    var filtered: seq<Fact> := [];
    var i := 0;
    while i < |records|
      invariant 0 <= i <= |records|
      invariant Filtered(records[..i]) == Ok(filtered)
    {
      assert records[..i + 1][..i] == records[..i];
      var p := Passes(records[i]);
      if p.Err? {
        FilteredRaises(records, i);
        return Err(p.error);
      }
      if p.value {
        filtered := filtered + [records[i]];
      }
      i := i + 1;
    }
    assert records[..i] == records;
    var keys: seq<Key> := [];
    var best: map<Key, Fact> := map[];
    var j := 0;
    while j < |filtered|
      invariant 0 <= j <= |filtered|
      invariant Best(keys, best) == BestOf(filtered[..j], metric)
    {
      assert filtered[..j + 1][..j] == filtered[..j];
      var f := filtered[j];
      var k := KeyOf(metric, f);
      if k !in best || Less(FiledOf(best[k]), FiledOf(f)) {
        if k !in best {
          keys := keys + [k];
        }
        best := best[k := f];
      }
      j := j + 1;
    }
    assert filtered[..j] == filtered;
    r := Ok(Values(Best(keys, best)));
  }

  // ------------------------------------------------------------------
  // Rows for the fundamental-data table
  // ------------------------------------------------------------------

  /** A `fundamental_data` row; `periodStart` is `None` for a point-in-time fact. */
  datatype FundamentalRow = FundamentalRow(instrumentId: int, reportDate: string, metricName: string,
                                           metricValue: real, periodType: string, periodStart: Option<string>,
                                           periodEnd: string, currency: string, dataSource: string)

  /** The row built from one picked fact. A missing `fp` or `end` raises
      `KeyError`, an unsupported `fp` `ValueError`, a missing value `TypeError`. */
  function RowOf(id: int, metric: string, currency: string, dataSource: string, f: Fact): (r: Result<FundamentalRow>)
    ensures r.Ok? <==> Among(f.fp, AllowedFp) && f.end.Some? && f.val.Some?
    ensures r.Ok? ==>
      (r.value.instrumentId == id && r.value.metricName == metric && r.value.currency == currency
      && r.value.dataSource == dataSource && r.value.metricValue == f.val.value
      && r.value.reportDate == r.value.periodEnd && r.value.periodEnd == Take(f.end.value.text, 10)
      && (r.value.periodType == "Annual" <==> f.fp == Some("FY"))
      && (r.value.periodType == "Quarterly" <==> Among(f.fp, Quarters))
      && (r.value.periodStart.Some? <==> f.start.Some? && f.start.value.text != "")
      && (r.value.periodStart.Some? ==> r.value.periodStart.value == Take(f.start.value.text, 10)))
  {
    if f.fp.None? then Err(KeyError)
    else
      match PeriodType(f.fp.value)
      case Err(e) => Err(e)
      case Ok(periodType) =>
        if f.end.None? then Err(KeyError)
        else if f.val.None? then Err(TypeError)
        else
          var endText := Take(f.end.value.text, 10);
          var startText := if f.start.Some? && f.start.value.text != "" then Some(Take(f.start.value.text, 10)) else None;
          Ok(FundamentalRow(id, endText, metric, f.val.value, periodType, startText, endText, currency, dataSource))
  }

  /** The shape every emitted row has. */
  predicate RowShape(row: FundamentalRow, id: int, dataSource: string) {
    row.instrumentId == id && row.dataSource == dataSource && row.reportDate == row.periodEnd
    && |row.periodEnd| <= 10 && (row.periodType == "Annual" || row.periodType == "Quarterly")
  }

  /** The rows of the picked facts of one unit, one per fact, in order. */
  function PickedRows(id: int, metric: string, currency: string, dataSource: string, picked: seq<Fact>): (r: Result<seq<FundamentalRow>>)
    ensures r.Ok? <==> forall i :: 0 <= i < |picked| ==> RowOf(id, metric, currency, dataSource, picked[i]).Ok?
    ensures r.Ok? ==> |r.value| == |picked|
    ensures r.Ok? ==> forall i :: 0 <= i < |picked| ==> RowOf(id, metric, currency, dataSource, picked[i]) == Ok(r.value[i])
  {
    if picked == [] then Ok([])
    else
      var n := |picked|;
      assert forall i :: 0 <= i < n - 1 ==> picked[..n - 1][i] == picked[i];
      match PickedRows(id, metric, currency, dataSource, picked[..n - 1])
      case Err(e) => Err(e)
      case Ok(init) =>
        match RowOf(id, metric, currency, dataSource, picked[n - 1])
        case Err(e) => Err(e)
        case Ok(row) => Ok(init + [row])
  }

  lemma {:induction false} PickedRowsRaise(id: int, metric: string, currency: string, dataSource: string,
                                           picked: seq<Fact>, j: nat)
    requires j < |picked| && PickedRows(id, metric, currency, dataSource, picked[..j]).Ok?
    requires RowOf(id, metric, currency, dataSource, picked[j]).Err?
    ensures PickedRows(id, metric, currency, dataSource, picked) == Err(RowOf(id, metric, currency, dataSource, picked[j]).error)
    decreases |picked|, 1
  {
    var n := |picked|;
    if j < n - 1 {
      PickedRowsRaiseEarlier(id, metric, currency, dataSource, picked, j);
    } else {
      PickedRowsLastErr(id, metric, currency, dataSource, picked, j);
    }
  }

  /** `PickedRowsRaise` when the failing fact is not the last one. */
  lemma {:induction false} PickedRowsRaiseEarlier(id: int, metric: string, currency: string, dataSource: string,
                                                  picked: seq<Fact>, j: nat)
    requires j < |picked| - 1 && PickedRows(id, metric, currency, dataSource, picked[..j]).Ok?
    requires RowOf(id, metric, currency, dataSource, picked[j]).Err?
    ensures PickedRows(id, metric, currency, dataSource, picked) == Err(RowOf(id, metric, currency, dataSource, picked[j]).error)
    decreases |picked|, 0
  {
    var init := picked[..|picked| - 1];
    assert init[..j] == picked[..j] && init[j] == picked[j];
    PickedRowsRaise(id, metric, currency, dataSource, init, j);
    PickedRowsInitErr(id, metric, currency, dataSource, picked);
  }

  /** An exception among the earlier facts is the loop's exception. */
  lemma {:induction false} PickedRowsInitErr(id: int, metric: string, currency: string, dataSource: string, picked: seq<Fact>)
    requires |picked| > 0 && PickedRows(id, metric, currency, dataSource, picked[..|picked| - 1]).Err?
    ensures PickedRows(id, metric, currency, dataSource, picked)
         == Err(PickedRows(id, metric, currency, dataSource, picked[..|picked| - 1]).error)
  {
  }

  /** Otherwise an exception of the last fact is. */
  lemma {:induction false} PickedRowsLastErr(id: int, metric: string, currency: string, dataSource: string,
                                             picked: seq<Fact>, j: nat)
    requires j == |picked| - 1 && PickedRows(id, metric, currency, dataSource, picked[..j]).Ok?
    requires RowOf(id, metric, currency, dataSource, picked[j]).Err?
    ensures PickedRows(id, metric, currency, dataSource, picked)
         == Err(RowOf(id, metric, currency, dataSource, picked[j]).error)
  {
  }

  /** A unit's list of facts under a metric; `records` is `None` when the
      JSON value is not a list. */
  datatype Unit = Unit(name: string, records: Option<seq<Fact>>)

  /** The rows of one unit: nothing for a non-list or an empty pick,
      otherwise one row per picked fact with the unit, upper-cased, as
      the currency. */
  function UnitRows(id: int, metric: string, dataSource: string, u: Unit): (r: Result<seq<FundamentalRow>>)
    ensures r.Ok? ==> forall i :: 0 <= i < |r.value| ==>
      (RowShape(r.value[i], id, dataSource) && r.value[i].metricName == metric && r.value[i].currency == Upper(u.name))
  {
    if u.records.None? then Ok([])
    else
      match Normalized(u.records.value, metric)
      case Err(e) => Err(e)
      case Ok(picked) =>
        if picked == [] then Ok([])
        else PickedRows(id, metric, Upper(u.name), dataSource, picked)
  }

  /** Once normalised, a unit's facts raise only for a missing period end,
      and otherwise give one row per picked fact. */
  lemma {:induction false} UnitRowsMeaning(id: int, metric: string, dataSource: string, u: Unit)
    requires u.records.Some? && Normalized(u.records.value, metric).Ok?
    ensures var picked := Normalized(u.records.value, metric).value;
      (UnitRows(id, metric, dataSource, u).Ok? <==> forall i :: 0 <= i < |picked| ==> picked[i].end.Some?)
      && (UnitRows(id, metric, dataSource, u).Ok? ==> |UnitRows(id, metric, dataSource, u).value| == |picked|)
  {
    var picked := Normalized(u.records.value, metric).value;
    forall i | 0 <= i < |picked|
      ensures RowOf(id, metric, Upper(u.name), dataSource, picked[i]).Ok? <==> picked[i].end.Some?
    {
      NormalizedPasses(u.records.value, metric, picked[i]);
    }
  }

  /** The rows of all units of one tag, in unit order. */
  function UnitsRows(id: int, metric: string, dataSource: string, units: seq<Unit>): (r: Result<seq<FundamentalRow>>)
    ensures r.Ok? ==> forall i :: 0 <= i < |r.value| ==> (RowShape(r.value[i], id, dataSource) && r.value[i].metricName == metric)
  {
    if units == [] then Ok([])
    else
      var n := |units|;
      match UnitsRows(id, metric, dataSource, units[..n - 1])
      case Err(e) => Err(e)
      case Ok(init) =>
        match UnitRows(id, metric, dataSource, units[n - 1])
        case Err(e) => Err(e)
        case Ok(rows) => Ok(init + rows)
  }

  lemma {:induction false} UnitsRowsRaise(id: int, metric: string, dataSource: string, units: seq<Unit>, j: nat)
    requires j < |units| && UnitsRows(id, metric, dataSource, units[..j]).Ok?
    requires UnitRows(id, metric, dataSource, units[j]).Err?
    ensures UnitsRows(id, metric, dataSource, units) == Err(UnitRows(id, metric, dataSource, units[j]).error)
    decreases |units|, 1
  {
    var n := |units|;
    if j < n - 1 {
      UnitsRowsRaiseEarlier(id, metric, dataSource, units, j);
    } else {
      UnitsRowsLastErr(id, metric, dataSource, units, j);
    }
  }

  /** `UnitsRowsRaise` when the failing unit is not the last one. */
  lemma {:induction false} UnitsRowsRaiseEarlier(id: int, metric: string, dataSource: string, units: seq<Unit>, j: nat)
    requires j < |units| - 1 && UnitsRows(id, metric, dataSource, units[..j]).Ok?
    requires UnitRows(id, metric, dataSource, units[j]).Err?
    ensures UnitsRows(id, metric, dataSource, units) == Err(UnitRows(id, metric, dataSource, units[j]).error)
    decreases |units|, 0
  {
    var init := units[..|units| - 1];
    assert init[..j] == units[..j] && init[j] == units[j];
    UnitsRowsRaise(id, metric, dataSource, init, j);
    UnitsRowsInitErr(id, metric, dataSource, units);
  }

  /** An exception among the earlier units is the loop's exception. */
  lemma {:induction false} UnitsRowsInitErr(id: int, metric: string, dataSource: string, units: seq<Unit>)
    requires |units| > 0 && UnitsRows(id, metric, dataSource, units[..|units| - 1]).Err?
    ensures UnitsRows(id, metric, dataSource, units) == Err(UnitsRows(id, metric, dataSource, units[..|units| - 1]).error)
  {
  }

  /** Otherwise an exception of the last unit is. */
  lemma {:induction false} UnitsRowsLastErr(id: int, metric: string, dataSource: string, units: seq<Unit>, j: nat)
    requires j == |units| - 1 && UnitsRows(id, metric, dataSource, units[..j]).Ok?
    requires UnitRows(id, metric, dataSource, units[j]).Err?
    ensures UnitsRows(id, metric, dataSource, units) == Err(UnitRows(id, metric, dataSource, units[j]).error)
  {
  }

  lemma {:induction false} UnitsRowsStep(id: int, metric: string, dataSource: string, units: seq<Unit>, u: nat)
    requires u < |units| && UnitsRows(id, metric, dataSource, units[..u]).Ok?
    requires UnitRows(id, metric, dataSource, units[u]).Ok?
    ensures UnitsRows(id, metric, dataSource, units[..u + 1])
      == Ok(UnitsRows(id, metric, dataSource, units[..u]).value + UnitRows(id, metric, dataSource, units[u]).value)
  {
    assert units[..u + 1][..u] == units[..u];
    assert units[..u + 1][u] == units[u];
  }

  /** One `(taxonomy, tag, units)` triple of `iterate_all_fact_tags`. */
  datatype TagFacts = TagFacts(taxonomy: string, tag: string, units: seq<Unit>)

  /** A tag of a taxonomy; `units` is empty when the key is missing or empty. */
  datatype TagEntry = TagEntry(name: string, units: seq<Unit>)

  /** A taxonomy of the `facts` object; `tags` is `None` when its value is
      not a dict. */
  datatype Taxonomy = Taxonomy(name: string, tags: Option<seq<TagEntry>>)

  /** The triples yielded for the tags of one taxonomy. */
  function TagsOf(taxonomy: string, tags: seq<TagEntry>): (ts: seq<TagFacts>)
    ensures forall i :: 0 <= i < |ts| ==> ts[i].units != []
    ensures forall t :: t in ts <==> exists e :: e in tags && e.units != [] && t == TagFacts(taxonomy, e.name, e.units)
  {
    if tags == [] then []
    else
      var n := |tags|;
      var e := tags[n - 1];
      assert forall e' :: e' in tags <==> e' in tags[..n - 1] || e' == e;
      TagsOf(taxonomy, tags[..n - 1]) + (if e.units != [] then [TagFacts(taxonomy, e.name, e.units)] else [])
  }

  /** A triple `iterate_all_fact_tags` yields for `taxes`. */
  predicate Yielded(taxes: seq<Taxonomy>, t: TagFacts) {
    exists x :: x in taxes && x.tags.Some? && t in TagsOf(x.name, x.tags.value)
  }

  /** `iterate_all_fact_tags`: every tag with units, of every taxonomy whose
      value is a dict, in document order. */
  function FactTags(taxes: seq<Taxonomy>): (ts: seq<TagFacts>)
    ensures forall t :: t in ts <==> Yielded(taxes, t)
    ensures forall i :: 0 <= i < |ts| ==> ts[i].units != []
  {
    if taxes == [] then []
    else
      var n := |taxes|;
      var x := taxes[n - 1];
      assert forall x' :: x' in taxes <==> x' in taxes[..n - 1] || x' == x;
      FactTags(taxes[..n - 1]) + (if x.tags.Some? then TagsOf(x.name, x.tags.value) else [])
  }

  /** `f"{taxonomy}.{tag}"`. */
  function MetricName(t: TagFacts): string {
    t.taxonomy + "." + t.tag
  }

  /** `to_insert` after the loop over the triples `ts`. */
  function AllRows(id: int, dataSource: string, ts: seq<TagFacts>): (r: Result<seq<FundamentalRow>>)
    ensures r.Ok? ==> forall i :: 0 <= i < |r.value| ==> RowShape(r.value[i], id, dataSource)
  {
    if ts == [] then Ok([])
    else
      var n := |ts|;
      match AllRows(id, dataSource, ts[..n - 1])
      case Err(e) => Err(e)
      case Ok(init) =>
        match UnitsRows(id, MetricName(ts[n - 1]), dataSource, ts[n - 1].units)
        case Err(e) => Err(e)
        case Ok(rows) => Ok(init + rows)
  }

  lemma {:induction false} AllRowsRaise(id: int, dataSource: string, ts: seq<TagFacts>, j: nat)
    requires j < |ts| && AllRows(id, dataSource, ts[..j]).Ok?
    requires UnitsRows(id, MetricName(ts[j]), dataSource, ts[j].units).Err?
    ensures AllRows(id, dataSource, ts) == Err(UnitsRows(id, MetricName(ts[j]), dataSource, ts[j].units).error)
    decreases |ts|
  {
    var n := |ts|;
    if j < n - 1 {
      assert ts[..n - 1][..j] == ts[..j];
      AllRowsRaise(id, dataSource, ts[..n - 1], j);
    } else {
      assert ts[..n - 1] == ts[..j];
    }
  }

  /** The rows of the picked facts appended to `to_insert`, one by one. */
  method AppendPicked(id: int, metric: string, currency: string, dataSource: string, picked: seq<Fact>,
                      toInsert: seq<FundamentalRow>) returns (r: Result<seq<FundamentalRow>>)
    ensures r.Ok? <==> PickedRows(id, metric, currency, dataSource, picked).Ok?
    ensures r.Ok? ==> r.value == toInsert + PickedRows(id, metric, currency, dataSource, picked).value
    ensures r.Err? ==> r.error == PickedRows(id, metric, currency, dataSource, picked).error
  {
    var rows := toInsert;
    var p := 0;
    while p < |picked|
      invariant 0 <= p <= |picked|
      invariant PickedRows(id, metric, currency, dataSource, picked[..p]).Ok?
      invariant rows == toInsert + PickedRows(id, metric, currency, dataSource, picked[..p]).value
    {
      assert picked[..p + 1][..p] == picked[..p];
      var row := RowOf(id, metric, currency, dataSource, picked[p]);
      if row.Err? {
        PickedRowsRaise(id, metric, currency, dataSource, picked, p);
        return Err(row.error);
      }
      rows := rows + [row.value];
      p := p + 1;
    }
    assert picked[..p] == picked;
    r := Ok(rows);
  }

  /** The body of the loop over a tag's units: a non-list is skipped, the
      facts are normalised, and a non-empty pick is appended. */
  method AppendUnit(id: int, metric: string, dataSource: string, unit: Unit,
                    toInsert: seq<FundamentalRow>) returns (r: Result<seq<FundamentalRow>>)
    ensures r.Ok? <==> UnitRows(id, metric, dataSource, unit).Ok?
    ensures r.Ok? ==> r.value == toInsert + UnitRows(id, metric, dataSource, unit).value
    ensures r.Err? ==> r.error == UnitRows(id, metric, dataSource, unit).error
  {
    if unit.records.None? {
      assert toInsert + [] == toInsert;
      return Ok(toInsert);
    }
    var picked := NormalizeAndDedupe(unit.records.value, metric);
    if picked.Err? {
      return Err(picked.error);
    }
    if picked.value == [] {
      assert toInsert + [] == toInsert;
      return Ok(toInsert);
    }
    r := AppendPicked(id, metric, Upper(unit.name), dataSource, picked.value, toInsert);
  }

  /** The loop over the units of one tag. */
  method AppendTag(id: int, dataSource: string, t: TagFacts,
                   toInsert: seq<FundamentalRow>) returns (r: Result<seq<FundamentalRow>>)
    ensures r.Ok? <==> UnitsRows(id, MetricName(t), dataSource, t.units).Ok?
    ensures r.Ok? ==> r.value == toInsert + UnitsRows(id, MetricName(t), dataSource, t.units).value
    ensures r.Err? ==> r.error == UnitsRows(id, MetricName(t), dataSource, t.units).error
  {
    var metric := MetricName(t);
    var units := t.units;
    var rows := toInsert;
    var u := 0;
    while u < |units|
      invariant 0 <= u <= |units|
      invariant UnitsRows(id, metric, dataSource, units[..u]).Ok?
      invariant rows == toInsert + UnitsRows(id, metric, dataSource, units[..u]).value
    {
      var next := AppendUnit(id, metric, dataSource, units[u], rows);
      if next.Err? {
        UnitsRowsRaise(id, metric, dataSource, units, u);
        return Err(next.error);
      }
      UnitsRowsStep(id, metric, dataSource, units, u);
      rows := next.value;
      u := u + 1;
    }
    assert units[..u] == units;
    r := Ok(rows);
  }

  /** The loops of `download_one_ticker_fundamental_data` over the triples,
      their units and the picked facts, appending to `to_insert`. */
  method DownloadRows(id: int, dataSource: string, taxes: seq<Taxonomy>) returns (r: Result<seq<FundamentalRow>>)
    ensures r == AllRows(id, dataSource, FactTags(taxes))
  {
    var ts := FactTags(taxes);
    var toInsert: seq<FundamentalRow> := [];
    var i := 0;
    while i < |ts|
      invariant 0 <= i <= |ts|
      invariant AllRows(id, dataSource, ts[..i]) == Ok(toInsert)
    {
      assert ts[..i + 1][..i] == ts[..i];
      var next := AppendTag(id, dataSource, ts[i], toInsert);
      if next.Err? {
        AllRowsRaise(id, dataSource, ts, i);
        return Err(next.error);
      }
      toInsert := next.value;
      i := i + 1;
    }
    assert ts[..i] == ts;
    r := Ok(toInsert);
  }

  // ------------------------------------------------------------------
  // CIK lookup
  // ------------------------------------------------------------------

  /** An entry of the SEC ticker mapping. */
  datatype TickerEntry = TickerEntry(ticker: string, cik: nat)

  /** `str(int(cik)).zfill(10)`: at least ten digits, denoting the CIK. */
  function CikText(cik: nat): (s: string)
    ensures |s| == (if |Decimal(cik)| < 10 then 10 else |Decimal(cik)|)
    ensures AllDigits(s) && ParseDecimal(s) == cik
  {
    var d := Decimal(cik);
    var s := ZFill(d, 10);
    assert s == s[..|s| - |d|] + d;
    ParseLeadingZeros(s[..|s| - |d|], d);
    DecimalRoundTrip(cik);
    s
  }

  /** `mapping[i]` is the first entry whose upper-cased ticker is `t`. */
  predicate FirstMatchAt(mapping: seq<TickerEntry>, t: string, i: int) {
    0 <= i < |mapping| && Upper(mapping[i].ticker) == t
    && forall j :: 0 <= j < i ==> Upper(mapping[j].ticker) != t
  }

  /** `_cik_from_ticker` over the mapping's entries in order. */
  method CikFromTicker(ticker: string, mapping: seq<TickerEntry>) returns (r: Result<string>)
    ensures r.Err? <==> forall i :: 0 <= i < |mapping| ==> Upper(mapping[i].ticker) != Strip(Upper(ticker))
    ensures r.Err? ==> r.error == ValueError
    ensures r.Ok? ==> exists i :: FirstMatchAt(mapping, Strip(Upper(ticker)), i) && r.value == CikText(mapping[i].cik)
  {
    var t := Strip(Upper(ticker));
    var i := 0;
    while i < |mapping|
      invariant 0 <= i <= |mapping|
      invariant forall j :: 0 <= j < i ==> Upper(mapping[j].ticker) != t
    {
      if Upper(mapping[i].ticker) == t {
        assert FirstMatchAt(mapping, t, i);
        return Ok(CikText(mapping[i].cik));
      }
      i := i + 1;
    }
    r := Err(ValueError);
  }

  // ------------------------------------------------------------------
  // The unit-test scenario
  // ------------------------------------------------------------------

  const AnnualFy: Fact := Fact(Some("10-K"), Some("FY"), Some(Stamp("2015-09-28", Some(16706))),
                               Some(Stamp("2016-09-24", Some(17068))), Some("2016-10-26"), Some(215639000000.0))
  const CumulativeQ3: Fact := Fact(Some("10-Q"), Some("Q3"), Some(Stamp("2015-09-28", Some(16706))),
                                   Some(Stamp("2016-06-25", Some(16977))), Some("2016-07-27"), Some(100000000000.0))
  const OriginalQ1: Fact := Fact(Some("10-Q"), Some("Q1"), Some(Stamp("2015-09-28", Some(16706))),
                                 Some(Stamp("2015-12-26", Some(16795))), Some("2016-01-27"), Some(75000000000.0))
  const AmendedQ1: Fact := Fact(Some("10-Q/A"), Some("Q1"), Some(Stamp("2015-09-28", Some(16706))),
                                Some(Stamp("2015-12-26", Some(16795))), Some("2016-02-15"), Some(76000000000.0))

  /** The annual fact stays, the 271-day Q3 figure is dropped, and the
      later-filed amendment replaces the original Q1 in its place. */
  lemma {:induction false} FilteredStep(records: seq<Fact>, i: nat)
    requires i < |records| && Filtered(records[..i]).Ok? && Passes(records[i]).Ok?
    ensures Filtered(records[..i + 1])
      == Ok(if Passes(records[i]).value then Filtered(records[..i]).value + [records[i]] else Filtered(records[..i]).value)
  {
    assert records[..i + 1][..i] == records[..i];
    assert records[..i + 1][i] == records[i];
  }

  lemma {:induction false} ExamplePasses()
    ensures Passes(AnnualFy) == Ok(true) && Passes(CumulativeQ3) == Ok(false)
    ensures Passes(OriginalQ1) == Ok(true) && Passes(AmendedQ1) == Ok(true)
  {
    assert DurationDays(CumulativeQ3) == Ok(271);
    assert DurationDays(OriginalQ1) == Ok(89);
  }

  lemma {:induction false} ExampleFiltered()
    ensures Filtered([AnnualFy, CumulativeQ3, OriginalQ1, AmendedQ1]) == Ok([AnnualFy, OriginalQ1, AmendedQ1])
  {
    var records := [AnnualFy, CumulativeQ3, OriginalQ1, AmendedQ1];
    ExamplePasses();
    ExampleFilteredFirst();
    FilteredStep(records, 2);
    assert [AnnualFy] + [OriginalQ1] == [AnnualFy, OriginalQ1];
    assert Filtered(records[..3]) == Ok([AnnualFy, OriginalQ1]);
    FilteredStep(records, 3);
    assert [AnnualFy, OriginalQ1] + [AmendedQ1] == [AnnualFy, OriginalQ1, AmendedQ1];
    assert records[..4] == records;
  }

  /** The first two records of the example leave the annual fact. */
  lemma {:induction false} ExampleFilteredFirst()
    ensures Filtered([AnnualFy, CumulativeQ3, OriginalQ1, AmendedQ1][..2]) == Ok([AnnualFy])
  {
    var records := [AnnualFy, CumulativeQ3, OriginalQ1, AmendedQ1];
    ExamplePasses();
    assert records[..0] == [];
    FilteredStep(records, 0);
    assert [] + [AnnualFy] == [AnnualFy];
    assert Filtered(records[..1]) == Ok([AnnualFy]);
    FilteredStep(records, 1);
  }

  lemma {:induction false} BestStep(fs: seq<Fact>, metric: string, i: nat)
    requires i < |fs|
    ensures BestOf(fs[..i + 1], metric) == Put(BestOf(fs[..i], metric), metric, fs[i])
  {
    assert fs[..i + 1][..i] == fs[..i];
    assert fs[..i + 1][i] == fs[i];
  }

  const ExampleMetric := "us-gaap.Revenues"

  /** A later-filed fact of the same key replaces an earlier one in its
      place, next to a fact of another key. */
  lemma {:induction false} DedupeAmended(metric: string, a: Fact, q: Fact, q2: Fact)
    requires KeyOf(metric, a) != KeyOf(metric, q) && KeyOf(metric, q2) == KeyOf(metric, q)
    requires Less(FiledOf(q), FiledOf(q2))
    ensures Dedupe([a, q, q2], metric) == [a, q2]
  {
    var fs := [a, q, q2];
    var kA := KeyOf(metric, a);
    var kQ := KeyOf(metric, q);
    assert fs[..0] == [];
    BestStep(fs, metric, 0);
    BestStep(fs, metric, 1);
    BestStep(fs, metric, 2);
    assert fs[..3] == fs;
    var b3 := BestOf(fs, metric);
    assert b3.keys == [kA, kQ] && b3.m[kQ] == q2 && b3.m[kA] == a;
  }

  /** The annual fact stays, the 271-day Q3 figure is dropped, and the
      later-filed amendment replaces the original Q1 in its place. */
  lemma {:induction false} ExampleNormalized()
    ensures Normalized([AnnualFy, CumulativeQ3, OriginalQ1, AmendedQ1], ExampleMetric) == Ok([AnnualFy, AmendedQ1])
  {
    ExampleFiltered();
    assert KeyOf(ExampleMetric, AnnualFy).fp != KeyOf(ExampleMetric, OriginalQ1).fp;
    LessAt(FiledOf(OriginalQ1), FiledOf(AmendedQ1), 6);
    DedupeAmended(ExampleMetric, AnnualFy, OriginalQ1, AmendedQ1);
  }

  /** The test's two rows: the annual one and the amended quarter, both
      under `us-gaap.Revenues` in USD, dated by the period end. */
  lemma {:induction false} ExampleRows()
    ensures RowOf(123, ExampleMetric, Upper("USD"), "sec_edgar", AnnualFy)
      == Ok(FundamentalRow(123, "2016-09-24", "us-gaap.Revenues", 215639000000.0, "Annual", Some("2015-09-28"),
                           "2016-09-24", "USD", "sec_edgar"))
    ensures RowOf(123, ExampleMetric, Upper("USD"), "sec_edgar", AmendedQ1)
      == Ok(FundamentalRow(123, "2015-12-26", "us-gaap.Revenues", 76000000000.0, "Quarterly", Some("2015-09-28"),
                           "2015-12-26", "USD", "sec_edgar"))
  {
    assert Upper("USD") == "USD";
    assert Take("2016-09-24", 10) == "2016-09-24" && Take("2015-12-26", 10) == "2015-12-26";
    assert Take("2015-09-28", 10) == "2015-09-28";
  }
}
