/** The candidate-universe builder: ticker validation, the index-member
    fetchers' column choices and '.'-to-'-' rewrite, and the merge of crawled
    and hand-added rows into the candidates CSV:
    data_download/input/tradable_candidates.py. */
module Candidates {
  import opened Common
  import opened Text

  // ------------------------------------------------------------------
  // Ticker validation
  // ------------------------------------------------------------------

  predicate AllUpper(s: string) {
    forall i :: 0 <= i < |s| ==> IsUpperLetter(s[i])
  }

  predicate IsSeparator(c: char) {
    c == '.' || c == '-'
  }

  /** The number of uppercase letters `s` starts with. */
  function LeadingUpper(s: string): (k: nat)
    ensures k <= |s| && AllUpper(s[..k])
    ensures k < |s| ==> !IsUpperLetter(s[k])
    decreases |s|
  {
    if s == [] || !IsUpperLetter(s[0]) then 0
    else
      var k := 1 + LeadingUpper(s[1..]);
      assert forall i :: 1 <= i < k ==> s[..k][i] == s[1..][..k - 1][i - 1];
      k
  }

  /** The run of leading uppercase letters ends at the first other character. */
  lemma {:induction false} LeadingUpperAt(s: string, k: nat)
    requires k <= |s| && AllUpper(s[..k]) && (k == |s| || !IsUpperLetter(s[k]))
    ensures LeadingUpper(s) == k
  {
  }

  /** `is_valid_us_ticker`: a non-empty string of one to five letters A–Z,
      optionally followed by one '.' or '-' and one or two letters A–Z,
      the whole string matching. */
  function IsValidUsTicker(t: string): bool {
    if t == "" then false
    else
      var k := LeadingUpper(t);
      1 <= k <= 5
      && (k == |t| || (IsSeparator(t[k]) && 1 <= |t| - k - 1 <= 2 && AllUpper(t[k + 1..])))
  }

  /** The pattern `[A-Z]{1,5}([.-][A-Z]{1,2})?` with a separator at `k`. */
  predicate SuffixAt(t: string, k: int) {
    1 <= k <= 5 && k + 2 <= |t| <= k + 3
    && AllUpper(t[..k]) && IsSeparator(t[k]) && AllUpper(t[k + 1..])
  }

  /** The strings the pattern `^[A-Z]{1,5}([.-][A-Z]{1,2})?$` matches in full. */
  ghost predicate MatchesPattern(t: string) {
    (1 <= |t| <= 5 && AllUpper(t)) || exists k :: SuffixAt(t, k)
  }

  /** The scan accepts exactly the strings the pattern matches. */
  lemma {:induction false} ValidTickerIsPattern(t: string)
    ensures IsValidUsTicker(t) <==> MatchesPattern(t)
  {
    if t != "" {
      var k := LeadingUpper(t);
      if IsValidUsTicker(t) && k < |t| {
        assert t[..k] == t[..k];
        assert SuffixAt(t, k);
      }
      if IsValidUsTicker(t) && k == |t| {
        assert t[..k] == t;
      }
      if 1 <= |t| <= 5 && AllUpper(t) {
        assert t[..|t|] == t;
        LeadingUpperAt(t, |t|);
      }
      if exists j :: SuffixAt(t, j) {
        var j :| SuffixAt(t, j);
        LeadingUpperAt(t, j);
      }
    }
  }

  /** The empty string is rejected. */
  lemma {:induction false} EmptyTickerInvalid()
    ensures !IsValidUsTicker("")
  {
  }

  /** A class-share ticker is valid with either separator. */
  lemma {:induction false} ClassShareValid()
    ensures IsValidUsTicker("BRK-B") && IsValidUsTicker("BRK.B")
  {
    LeadingUpperAt("BRK-B", 3);
    LeadingUpperAt("BRK.B", 3);
  }

  /** Six letters, a three-letter suffix and lower case are rejected. */
  lemma {:induction false} MalformedInvalid()
    ensures !IsValidUsTicker("ABCDEF") && !IsValidUsTicker("ABC-DEF") && !IsValidUsTicker("aapl")
  {
    LeadingUpperAt("ABCDEF", 6);
    LeadingUpperAt("ABC-DEF", 3);
  }

  /** Rewriting '.' to '-' neither makes a ticker valid nor invalid. */
  lemma {:induction false} RewriteKeepsValidity(t: string)
    ensures IsValidUsTicker(Dashed(t)) == IsValidUsTicker(t)
  {
    var r := Dashed(t);
    if t != "" {
      var k := LeadingUpper(t);
      assert r[..k] == Dashed(t[..k]);
      assert forall i :: 0 <= i < |r| ==> (IsUpperLetter(r[i]) <==> IsUpperLetter(t[i]));
      LeadingUpperAt(r, k);
      if k < |t| {
        assert IsSeparator(r[k]) <==> IsSeparator(t[k]);
        assert r[k + 1..] == Dashed(t[k + 1..]);
        assert AllUpper(r[k + 1..]) <==> AllUpper(t[k + 1..]);
      }
    }
  }

  // ------------------------------------------------------------------
  // Fetched tables
  // ------------------------------------------------------------------

  /** `str.replace(".", "-")`: what every fetcher does to its tickers. */
  function Dashed(t: string): (r: string)
    ensures |r| == |t| && '.' !in r
    ensures forall i :: 0 <= i < |t| ==> r[i] == (if t[i] == '.' then '-' else t[i])
  {
    ReplaceChar(t, '.', '-')
  }

  /** A parsed HTML or CSV table: its header and its rows of cells as text. */
  datatype Table = Table(columns: seq<string>, rows: seq<seq<string>>)

  /** A cell after `astype(str)`: a missing cell is NaN, written "nan". */
  function CellText(row: seq<string>, i: nat): string {
    if i < |row| then row[i] else "nan"
  }

  /** The position of the first column with this name. */
  function ColumnIndex(cols: seq<string>, name: string): (r: Option<nat>)
    ensures r.Some? <==> name in cols
    ensures r.Some? ==> r.value < |cols| && cols[r.value] == name
  {
    if cols == [] then None
    else if cols[0] == name then Some(0)
    else
      var r := ColumnIndex(cols[1..], name);
      if r.None? then None else Some(r.value + 1)
  }

  /** One fetched member: ticker, company name, source tag and the day it was fetched. */
  datatype Listing = Listing(ticker: string, name: string, source: string, addedAt: Date)

  /** `zip(tickers, names, [source] * n, [today] * n)` over the chosen columns. */
  function Listings(t: Table, tickerCol: nat, nameCol: nat, source: string, today: Date): (ls: seq<Listing>)
    ensures |ls| == |t.rows|
    ensures forall i :: 0 <= i < |ls| ==>
      ls[i] == Listing(Dashed(CellText(t.rows[i], tickerCol)), CellText(t.rows[i], nameCol), source, today)
  {
    seq(|t.rows|, i requires 0 <= i < |t.rows| =>
      Listing(Dashed(CellText(t.rows[i], tickerCol)), CellText(t.rows[i], nameCol), source, today))
  }

  /** What every fetcher promises of a successful result. */
  predicate Fetched(ls: seq<Listing>, source: string, today: Date) {
    forall l :: l in ls ==> '.' !in l.ticker && l.source == source && l.addedAt == today
  }

  /** `df[name]`: `KeyError` for a column the table lacks. */
  function Column(t: Table, name: string): (r: Result<nat>)
    ensures r.Ok? <==> name in t.columns
    ensures r.Ok? ==> r.value < |t.columns| && t.columns[r.value] == name
    ensures r.Err? ==> r.error == KeyError
  {
    var i := ColumnIndex(t.columns, name);
    if i.None? then Err(KeyError) else Ok(i.value)
  }

  /** `fetch_sp500_list`: the first table's "Symbol" and "Security" columns.
      `read_html` raises `ValueError` when the page has no table. */
  function Sp500(tables: seq<Table>, today: Date): (r: Result<seq<Listing>>)
    ensures tables == [] ==> r == Err(ValueError)
    ensures tables != [] ==>
      (r.Ok? <==> "Symbol" in tables[0].columns && "Security" in tables[0].columns)
    ensures tables != [] && r.Err? ==> r.error == KeyError
    ensures r.Ok? ==> Fetched(r.value, "sp500", today) && |r.value| == |tables[0].rows|
  {
    if tables == [] then Err(ValueError)
    else
      var t := Column(tables[0], "Symbol");
      var n := Column(tables[0], "Security");
      if t.Err? then Err(t.error)
      else if n.Err? then Err(n.error)
      else Ok(Listings(tables[0], t.value, n.value, "sp500", today))
  }

  /** The first table with both a "Ticker" and a "Company" column. */
  function FirstWithTickerAndCompany(tables: seq<Table>): (r: Option<nat>)
    ensures r.None? <==> forall i :: 0 <= i < |tables| ==>
      !("Ticker" in tables[i].columns && "Company" in tables[i].columns)
    ensures r.Some? ==>
      (r.value < |tables|
       && "Ticker" in tables[r.value].columns && "Company" in tables[r.value].columns
       && forall i :: 0 <= i < r.value ==> !("Ticker" in tables[i].columns && "Company" in tables[i].columns))
  {
    if tables == [] then None
    else if "Ticker" in tables[0].columns && "Company" in tables[0].columns then Some(0)
    else
      var r := FirstWithTickerAndCompany(tables[1..]);
      assert forall i :: 1 <= i < |tables| ==> tables[i] == tables[1..][i - 1];
      if r.None? then None else Some(r.value + 1)
  }

  /** `fetch_nasdaq100_list`: the first table with "Ticker" and "Company"
      columns; `ValueError` when there is none. */
  function Nasdaq100(tables: seq<Table>, today: Date): (r: Result<seq<Listing>>)
    ensures r.Err? <==> FirstWithTickerAndCompany(tables).None?
    ensures r.Err? ==> r.error == ValueError
    ensures r.Ok? ==>
      (Fetched(r.value, "nasdaq100", today)
       && |r.value| == |tables[FirstWithTickerAndCompany(tables).value].rows|)
  {
    var k := FirstWithTickerAndCompany(tables);
    if k.None? then Err(ValueError)
    else
      var t := tables[k.value];
      Ok(Listings(t, Column(t, "Ticker").value, Column(t, "Company").value, "nasdaq100", today))
  }

  /** The position in `names` of the first name the table has. */
  function FirstPresent(names: seq<string>, cols: seq<string>): (r: Option<nat>)
    ensures r.None? <==> forall i :: 0 <= i < |names| ==> names[i] !in cols
    ensures r.Some? ==>
      (r.value < |names| && names[r.value] in cols
       && forall i :: 0 <= i < r.value ==> names[i] !in cols)
  {
    if names == [] then None
    else if names[0] in cols then Some(0)
    else
      var r := FirstPresent(names[1..], cols);
      assert forall i :: 1 <= i < |names| ==> names[i] == names[1..][i - 1];
      if r.None? then None else Some(r.value + 1)
  }

  /** The first of the preferred names the table has, else the column at
      `fallback`; `IndexError` when that position does not exist. */
  function PreferredColumn(cols: seq<string>, names: seq<string>, fallback: nat): (r: Result<nat>)
    ensures FirstPresent(names, cols).Some? ==>
      r.Ok? && r.value < |cols| && cols[r.value] == names[FirstPresent(names, cols).value]
    ensures FirstPresent(names, cols).None? ==>
      r == (if fallback < |cols| then Ok(fallback) else Err(IndexError))
  {
    var k := FirstPresent(names, cols);
    if k.Some? then Ok(ColumnIndex(cols, names[k.value]).value)
    else if fallback < |cols| then Ok(fallback)
    else Err(IndexError)
  }

  /** `fetch_sp400_list` (`nameOrder` "Security", "Company", "Company Name")
      and `fetch_sp600_list` ("Company", "Security", "Company Name"): the
      ticker column is "Symbol", else "Ticker", else the first; the name
      column the first of `nameOrder` present, else the second. */
  function MidSmallCap(tables: seq<Table>, nameOrder: seq<string>, source: string, today: Date): (r: Result<seq<Listing>>)
    ensures tables == [] ==> r == Err(ValueError)
    ensures tables != [] && tables[0].columns == [] ==> r == Err(IndexError)
    ensures tables != [] && |tables[0].columns| >= 2 ==> r.Ok?
    ensures r.Ok? ==> Fetched(r.value, source, today) && |r.value| == |tables[0].rows|
  {
    if tables == [] then Err(ValueError)
    else
      var t := tables[0];
      var tc := PreferredColumn(t.columns, ["Symbol", "Ticker"], 0);
      var nc := PreferredColumn(t.columns, nameOrder, 1);
      if tc.Err? then Err(tc.error)
      else if nc.Err? then Err(nc.error)
      else Ok(Listings(t, tc.value, nc.value, source, today))
  }

  const Sp400Names: seq<string> := ["Security", "Company", "Company Name"]
  const Sp600Names: seq<string> := ["Company", "Security", "Company Name"]

  // ------------------------------------------------------------------
  // iShares holdings files
  // ------------------------------------------------------------------

  /** A line that can be the header of the holdings table. */
  predicate IsHeader(line: string) {
    Contains(line, "Ticker") || Contains(line, "Symbol")
  }

  /** The first header line of the file, if any. */
  function FirstHeader(lines: seq<string>): (r: Option<nat>)
    ensures r.None? <==> forall i :: 0 <= i < |lines| ==> !IsHeader(lines[i])
    ensures r.Some? ==>
      (r.value < |lines| && IsHeader(lines[r.value])
       && forall j :: 0 <= j < r.value ==> !IsHeader(lines[j]))
  {
    if lines == [] then None
    else if IsHeader(lines[0]) then Some(0)
    else
      var r := FirstHeader(lines[1..]);
      assert forall i :: 1 <= i < |lines| ==> lines[i] == lines[1..][i - 1];
      if r.None? then None else Some(r.value + 1)
  }

  /** The `for ... else` header search: the first line mentioning "Ticker"
      or "Symbol", else `ValueError`. */
  method FindHeader(lines: seq<string>) returns (r: Result<nat>)
    ensures r.Err? <==> forall i :: 0 <= i < |lines| ==> !IsHeader(lines[i])
    ensures r.Err? ==> r.error == ValueError
    ensures r.Ok? ==>
      (r.value < |lines| && IsHeader(lines[r.value])
       && forall j :: 0 <= j < r.value ==> !IsHeader(lines[j]))
    ensures r.Ok? ==> FirstHeader(lines) == Some(r.value)
  {
    var i := 0;
    while i < |lines|
      invariant 0 <= i <= |lines|
      invariant forall j :: 0 <= j < i ==> !IsHeader(lines[j])
    {
      if IsHeader(lines[i]) {
        var h := FirstHeader(lines);
        assert h.Some? && h.value >= i && h.value <= i;
        return Ok(i);
      }
      i := i + 1;
    }
    return Err(ValueError);
  }

  const TickerNames: seq<string> := ["Ticker", "Symbol", "Ticker Symbol"]

  predicate IsNameColumn(c: string) {
    Contains(c, "Name") || Contains(c, "Company")
  }

  /** The first column one of whose names is in `TickerNames`. */
  function TickerColumn(cols: seq<string>): (r: Option<nat>)
    ensures r.None? <==> forall i :: 0 <= i < |cols| ==> cols[i] !in TickerNames
    ensures r.Some? ==>
      (r.value < |cols| && cols[r.value] in TickerNames
       && forall j :: 0 <= j < r.value ==> cols[j] !in TickerNames)
  {
    if cols == [] then None
    else if cols[0] in TickerNames then Some(0)
    else
      var r := TickerColumn(cols[1..]);
      assert forall i :: 1 <= i < |cols| ==> cols[i] == cols[1..][i - 1];
      if r.None? then None else Some(r.value + 1)
  }

  /** The first column whose name mentions "Name" or "Company". */
  function NameColumn(cols: seq<string>): (r: Option<nat>)
    ensures r.None? <==> forall i :: 0 <= i < |cols| ==> !IsNameColumn(cols[i])
    ensures r.Some? ==>
      (r.value < |cols| && IsNameColumn(cols[r.value])
       && forall j :: 0 <= j < r.value ==> !IsNameColumn(cols[j]))
  {
    if cols == [] then None
    else if IsNameColumn(cols[0]) then Some(0)
    else
      var r := NameColumn(cols[1..]);
      assert forall i :: 1 <= i < |cols| ==> cols[i] == cols[1..][i - 1];
      if r.None? then None else Some(r.value + 1)
  }

  /** `fetch_russell1000_list` and `fetch_russell2000_list`: the table read
      from the header line on (`parse`, the CSV reader) must have a ticker
      and a name column, else `ValueError`. */
  function IShares(lines: seq<string>, parse: seq<string> -> Table, source: string, today: Date)
    : (r: Result<seq<Listing>>)
    ensures FirstHeader(lines).None? ==> r == Err(ValueError)
    ensures FirstHeader(lines).Some? ==>
      var t := parse(lines[FirstHeader(lines).value..]);
      (r.Ok? <==> TickerColumn(t.columns).Some? && NameColumn(t.columns).Some?)
      && (r.Ok? ==> |r.value| == |t.rows|)
    ensures r.Err? ==> r.error == ValueError
    ensures r.Ok? ==> Fetched(r.value, source, today)
  {
    var h := FirstHeader(lines);
    if h.None? then Err(ValueError)
    else
      var t := parse(lines[h.value..]);
      var tc := TickerColumn(t.columns);
      var nc := NameColumn(t.columns);
      if tc.None? || nc.None? then Err(ValueError)
      else Ok(Listings(t, tc.value, nc.value, source, today))
  }

  // ------------------------------------------------------------------
  // Candidate rows and the merge
  // ------------------------------------------------------------------

  /** A cell of the combined frame: missing (`None`), NaN, text, a flag or a date. */
  datatype Value = Absent | Nan | Str(s: string) | Flag(b: bool) | Day(d: Date)

  /** A row of the candidates CSV. */
  datatype Candidate = Candidate(ticker: Value, companyName: Value, source: Value, addedAt: Value,
                                 isActiveDefault: Value, notes: Value)

  /** A crawled row: not active by default, with empty notes. */
  function FromListing(l: Listing): (c: Candidate)
    ensures c.ticker == Str(l.ticker) && c.source == Str(l.source)
    ensures c.isActiveDefault == Flag(false) && c.notes == Str("")
  {
    Candidate(Str(l.ticker), Str(l.name), Str(l.source), Day(l.addedAt), Flag(false), Str(""))
  }

  function FromListings(ls: seq<Listing>): (cs: seq<Candidate>)
    ensures |cs| == |ls| && forall i :: 0 <= i < |ls| ==> cs[i] == FromListing(ls[i])
  {
    seq(|ls|, i requires 0 <= i < |ls| => FromListing(ls[i]))
  }

  /** The existing CSV as read back: its header, and each row's non-empty cells. */
  datatype SavedCsv = SavedCsv(columns: seq<string>, rows: seq<map<string, string>>)

  /** A saved cell: NaN when empty. */
  function SavedCell(row: map<string, string>, col: string): Value {
    if col in row then Str(row[col]) else Nan
  }

  /** `str(source).startswith('manual')`; an empty source reads "nan". */
  predicate IsManual(row: map<string, string>) {
    "source" in row && StartsWith(row["source"], "manual")
  }

  /** A kept manual row, with a missing column filled by `None` (by '' for notes). */
  function ManualCandidate(cols: seq<string>, row: map<string, string>): (c: Candidate)
    ensures c.notes == (if "notes" in cols then SavedCell(row, "notes") else Str(""))
    ensures c.ticker == (if "ticker" in cols then SavedCell(row, "ticker") else Absent)
  {
    var cell := (col: string) => if col in cols then SavedCell(row, col) else if col == "notes" then Str("") else Absent;
    Candidate(cell("ticker"), cell("company_name"), cell("source"), cell("added_at"),
              cell("is_active_default"), cell("notes"))
  }

  /** The manual rows in file order. */
  function ManualRows(cols: seq<string>, rows: seq<map<string, string>>): (ms: seq<Candidate>)
    ensures |ms| <= |rows|
    ensures forall c :: c in ms <==> exists row :: row in rows && IsManual(row) && c == ManualCandidate(cols, row)
  {
    if rows == [] then []
    else
      var n := |rows|;
      assert forall row :: row in rows <==> row in rows[..n - 1] || row == rows[n - 1];
      ManualRows(cols, rows[..n - 1]) + (if IsManual(rows[n - 1]) then [ManualCandidate(cols, rows[n - 1])] else [])
  }

  /** Step 1: the manual rows carried over, only when asked to, when the file
      could be read and when it has a "source" column. */
  function CarriedOver(existing: Option<SavedCsv>, preserveManual: bool): seq<Candidate> {
    if preserveManual && existing.Some? && "source" in existing.value.columns
    then ManualRows(existing.value.columns, existing.value.rows)
    else []
  }

  /** `is_valid_us_ticker` applied to a cell: `None` and `False` are rejected
      by `not ticker`; NaN, `True` and a date reach the regex and raise
      `TypeError`. */
  function TickerCheck(v: Value): (r: Result<bool>)
    ensures r == Ok(true) <==> v.Str? && IsValidUsTicker(v.s)
    ensures r.Err? ==> r.error == TypeError
  {
    match v
    case Absent => Ok(false)
    case Nan => Err(TypeError)
    case Str(s) => Ok(IsValidUsTicker(s))
    case Flag(b) => if b then Err(TypeError) else Ok(false)
    case Day(_) => Err(TypeError)
  }

  /** Step 4: the rows whose ticker is valid, in order; the check of any row raising stops it. */
  function KeepValid(rows: seq<Candidate>): (r: Result<seq<Candidate>>)
    ensures r.Ok? <==> forall i :: 0 <= i < |rows| ==> TickerCheck(rows[i].ticker).Ok?
    ensures r.Err? ==> r.error == TypeError
    ensures r.Ok? ==> |r.value| <= |rows|
  {
    if rows == [] then Ok([])
    else
      var n := |rows|;
      var init := KeepValid(rows[..n - 1]);
      var check := TickerCheck(rows[n - 1].ticker);
      assert forall i :: 0 <= i < n - 1 ==> rows[..n - 1][i] == rows[i];
      if init.Err? then Err(TypeError)
      else if check.Err? then Err(TypeError)
      else Ok(init.value + (if check.value then [rows[n - 1]] else []))
  }

  lemma {:induction false} KeepValidMembers(rows: seq<Candidate>)
    requires KeepValid(rows).Ok?
    ensures forall c :: c in KeepValid(rows).value <==> c in rows && TickerCheck(c.ticker) == Ok(true)
    decreases |rows|
  {
    if rows != [] {
      var n := |rows|;
      assert KeepValid(rows[..n - 1]).Ok?;
      KeepValidMembers(rows[..n - 1]);
      assert forall c :: c in rows <==> c in rows[..n - 1] || c == rows[n - 1];
    }
  }

  /** The filter runs row by row, so the valid rows of two runs of rows are
      those of the first followed by those of the second. */
  lemma {:induction false} KeepValidAppend(a: seq<Candidate>, b: seq<Candidate>)
    requires KeepValid(a + b).Ok?
    ensures KeepValid(a).Ok? && KeepValid(b).Ok?
    ensures KeepValid(a + b).value == KeepValid(a).value + KeepValid(b).value
    decreases |b|
  {
    if b == [] {
      assert a + b == a;
    } else {
      var n := |b|;
      assert (a + b)[..|a + b| - 1] == a + b[..n - 1];
      assert (a + b)[|a + b| - 1] == b[n - 1];
      assert KeepValid(a + b[..n - 1]).Ok?;
      KeepValidAppend(a, b[..n - 1]);
      assert forall i :: 0 <= i < |a| ==> (a + b)[i] == a[i];
      assert forall i :: 0 <= i < n ==> (a + b)[|a| + i] == b[i];
    }
  }

  function TickersOf(rows: seq<Candidate>): (ts: seq<Value>)
    ensures |ts| == |rows| && forall i :: 0 <= i < |rows| ==> ts[i] == rows[i].ticker
  {
    seq(|rows|, i requires 0 <= i < |rows| => rows[i].ticker)
  }

  /** Row `i` is the first with its ticker. */
  predicate FirstAt(rows: seq<Candidate>, i: nat)
    requires i < |rows|
  {
    rows[i].ticker !in TickersOf(rows[..i])
  }

  /** Step 5, `drop_duplicates(subset=['ticker'], keep='first')`. */
  function KeepFirst(rows: seq<Candidate>): (out: seq<Candidate>)
    ensures |out| <= |rows|
  {
    if rows == [] then []
    else
      var n := |rows|;
      KeepFirst(rows[..n - 1]) + (if FirstAt(rows, n - 1) then [rows[n - 1]] else [])
  }

  /** `x` is the first row of `rows` with its ticker. */
  ghost predicate FirstOccurrence(rows: seq<Candidate>, x: Candidate) {
    exists i :: 0 <= i < |rows| && rows[i] == x && FirstAt(rows, i)
  }

  lemma {:induction false} FirstAtPrefix(rows: seq<Candidate>, m: nat, i: nat)
    requires i < m <= |rows|
    ensures FirstAt(rows[..m], i) == FirstAt(rows, i)
  {
    assert rows[..m][..i] == rows[..i];
  }

  /** The survivors are exactly the first row of each ticker. */
  lemma {:induction false} KeepFirstMembers(rows: seq<Candidate>)
    ensures forall x :: x in KeepFirst(rows) ==> FirstOccurrence(rows, x)
    ensures forall i :: 0 <= i < |rows| && FirstAt(rows, i) ==> rows[i] in KeepFirst(rows)
  {
    KeepFirstSound(rows);
    KeepFirstComplete(rows);
  }

  /** A survivor is an earlier survivor or the last row when it comes first. */
  lemma {:induction false} KeepFirstLast(rows: seq<Candidate>, x: Candidate)
    requires rows != []
    ensures x in KeepFirst(rows) <==> x in KeepFirst(rows[..|rows| - 1]) || (FirstAt(rows, |rows| - 1) && x == rows[|rows| - 1])
  {
  }

  lemma {:induction false} KeepFirstSound(rows: seq<Candidate>)
    ensures forall x :: x in KeepFirst(rows) ==> FirstOccurrence(rows, x)
    decreases |rows|
  {
    if rows != [] {
      var n := |rows|;
      var init := rows[..n - 1];
      KeepFirstSound(init);
      forall x | x in KeepFirst(rows)
        ensures FirstOccurrence(rows, x)
      {
        KeepFirstLast(rows, x);
        if x in KeepFirst(init) {
          var i :| 0 <= i < |init| && init[i] == x && FirstAt(init, i);
          FirstAtPrefix(rows, n - 1, i);
        }
      }
    }
  }

  lemma {:induction false} KeepFirstComplete(rows: seq<Candidate>)
    ensures forall i :: 0 <= i < |rows| && FirstAt(rows, i) ==> rows[i] in KeepFirst(rows)
  {
    forall i | 0 <= i < |rows| && FirstAt(rows, i)
      ensures rows[i] in KeepFirst(rows)
    {
      KeepFirstKeeps(rows, i);
    }
  }

  /** The first row of a ticker survives. */
  lemma {:induction false} KeepFirstKeeps(rows: seq<Candidate>, i: nat)
    requires i < |rows| && FirstAt(rows, i)
    ensures rows[i] in KeepFirst(rows)
    decreases |rows|
  {
    var n := |rows|;
    KeepFirstLast(rows, rows[i]);
    if i < n - 1 {
      FirstAtPrefix(rows, n - 1, i);
      assert rows[..n - 1][i] == rows[i];
      KeepFirstKeeps(rows[..n - 1], i);
    }
  }

  /** Every ticker of the input survives, and no ticker is left twice. */
  lemma {:induction false} KeepFirstTickers(rows: seq<Candidate>)
    ensures forall t :: t in TickersOf(KeepFirst(rows)) <==> t in TickersOf(rows)
    ensures Distinct(TickersOf(KeepFirst(rows)))
  {
    KeepFirstCovers(rows);
    KeepFirstDistinct(rows);
  }

  /** `KeepFirst` loses no ticker and invents none. */
  lemma {:induction false} KeepFirstCovers(rows: seq<Candidate>)
    ensures forall t :: t in TickersOf(KeepFirst(rows)) <==> t in TickersOf(rows)
  {
    forall t ensures t in TickersOf(KeepFirst(rows)) <==> t in TickersOf(rows) {
      if t in TickersOf(KeepFirst(rows)) {
        KeptTicker(rows, t);
      }
      if t in TickersOf(rows) {
        var i := FirstWithTicker(rows, t);
        KeepFirstKeeps(rows, i);
        HasTicker(KeepFirst(rows), rows[i]);
      }
    }
  }

  /** A row's ticker is among the tickers of any rows holding it. */
  lemma {:induction false} HasTicker(rows: seq<Candidate>, x: Candidate)
    requires x in rows
    ensures x.ticker in TickersOf(rows)
  {
    var m :| 0 <= m < |rows| && rows[m] == x;
    assert TickersOf(rows)[m] == x.ticker;
  }

  /** A surviving ticker comes from the input. */
  lemma {:induction false} KeptTicker(rows: seq<Candidate>, t: Value)
    requires t in TickersOf(KeepFirst(rows))
    ensures t in TickersOf(rows)
  {
    var k := KeepFirst(rows);
    var m :| 0 <= m < |k| && TickersOf(k)[m] == t;
    KeepFirstSound(rows);
    assert FirstOccurrence(rows, k[m]);
    var i :| 0 <= i < |rows| && rows[i] == k[m] && FirstAt(rows, i);
    HasTicker(rows, rows[i]);
  }

  /** The first row with a ticker of the input. */
  lemma {:induction false} FirstWithTicker(rows: seq<Candidate>, t: Value) returns (i: nat)
    requires t in TickersOf(rows)
    ensures i < |rows| && rows[i].ticker == t && FirstAt(rows, i)
    decreases |rows|
  {
    var n := |rows|;
    var init := rows[..n - 1];
    if t in TickersOf(init) {
      i := FirstWithTicker(init, t);
      FirstAtPrefix(rows, n - 1, i);
    } else {
      i := n - 1;
    }
  }

  /** `KeepFirst` leaves no ticker twice. */
  lemma {:induction false} KeepFirstDistinct(rows: seq<Candidate>)
    ensures Distinct(TickersOf(KeepFirst(rows)))
    decreases |rows|
  {
    if rows != [] {
      var n := |rows|;
      var init := rows[..n - 1];
      KeepFirstDistinct(init);
      if FirstAt(rows, n - 1) {
        KeepFirstCovers(init);
        var k := KeepFirst(init);
        assert TickersOf(KeepFirst(rows)) == TickersOf(k) + [rows[n - 1].ticker];
        DistinctSnoc(TickersOf(k), rows[n - 1].ticker, TickersOf(KeepFirst(rows)));
      }
    }
  }

  /** The crawled rows in the order `sp500 + sp400 + sp600 + russell1000 +
      nasdaq100 + russell2000`, or Russell 1000 alone; the fetchers run
      Russell 1000 first, so its failure is the one raised first. */
  function Crawled(includeAll: bool, r1000: Result<seq<Listing>>, sp500: Result<seq<Listing>>,
                   sp400: Result<seq<Listing>>, sp600: Result<seq<Listing>>,
                   ndx: Result<seq<Listing>>, r2000: Result<seq<Listing>>): (r: Result<seq<Listing>>)
    ensures r1000.Err? ==> r == r1000
    ensures !includeAll && r1000.Ok? ==> r == r1000
    ensures includeAll && r.Ok? ==>
      r1000.Ok? && sp500.Ok? && sp400.Ok? && sp600.Ok? && ndx.Ok? && r2000.Ok?
      && r.value == sp500.value + sp400.value + sp600.value + r1000.value + ndx.value + r2000.value
  {
    if r1000.Err? then r1000
    else if !includeAll then r1000
    else if sp500.Err? then sp500
    else if sp400.Err? then sp400
    else if sp600.Err? then sp600
    else if ndx.Err? then ndx
    else if r2000.Err? then r2000
    else Ok(sp500.value + sp400.value + sp600.value + r1000.value + ndx.value + r2000.value)
  }

  /** The first row of a ticker comes no later than any row with that ticker. */
  lemma {:induction false} FirstComesFirst(rows: seq<Candidate>, j: nat, i: nat)
    requires j < |rows| && i < |rows| && rows[j].ticker == rows[i].ticker && FirstAt(rows, i)
    ensures i <= j
  {
  }

  /** A crawled row's ticker shadows any later row with the same ticker: the
      surviving row for it is a crawled row. */
  lemma {:induction false} CrawledWins(crawled: seq<Candidate>, manual: seq<Candidate>, c: Candidate)
    requires KeepValid(crawled + manual).Ok?
    requires c in crawled && TickerCheck(c.ticker) == Ok(true)
    ensures exists x :: x in KeepFirst(KeepValid(crawled + manual).value) && x.ticker == c.ticker
    ensures forall x :: x in KeepFirst(KeepValid(crawled + manual).value) && x.ticker == c.ticker ==> x in crawled
  {
    var fs := KeepValid(crawled + manual).value;
    var j, m := CrawledPrefix(crawled, manual, c);
    KeepFirstMembers(fs);
    KeepFirstTickers(fs);
    assert c.ticker in TickersOf(fs);
    forall x | x in KeepFirst(fs) && x.ticker == c.ticker
      ensures x in crawled
    {
      var i :| 0 <= i < |fs| && fs[i] == x && FirstAt(fs, i);
      FirstComesFirst(fs, j, i);
    }
  }

  /** The valid crawled rows lead the valid rows: the first `m` of them are
      crawled rows, and `c` is the one at `j`. */
  lemma {:induction false} CrawledPrefix(crawled: seq<Candidate>, manual: seq<Candidate>, c: Candidate) returns (j: nat, m: nat)
    requires KeepValid(crawled + manual).Ok?
    requires c in crawled && TickerCheck(c.ticker) == Ok(true)
    ensures var fs := KeepValid(crawled + manual).value;
      j < m <= |fs| && fs[j] == c && forall i :: 0 <= i < m ==> fs[i] in crawled
  {
    KeepValidAppend(crawled, manual);
    var fc := KeepValid(crawled).value;
    var fs := KeepValid(crawled + manual).value;
    assert fs == fc + KeepValid(manual).value;
    KeepValidMembers(crawled);
    assert c in fc;
    j :| 0 <= j < |fc| && fc[j] == c;
    m := |fc|;
    assert forall i :: 0 <= i < m ==> fs[i] == fc[i];
  }

  /** `save_tradable_candidates_csv` up to the write: carry over the manual
      rows, crawl, concatenate crawled before manual, keep the valid tickers,
      then the first row of each ticker. */
  method SaveCandidates(existing: Option<SavedCsv>, includeAll: bool, preserveManual: bool,
                        r1000: Result<seq<Listing>>, sp500: Result<seq<Listing>>,
                        sp400: Result<seq<Listing>>, sp600: Result<seq<Listing>>,
                        ndx: Result<seq<Listing>>, r2000: Result<seq<Listing>>)
    returns (r: Result<seq<Candidate>>)
    ensures var crawled := Crawled(includeAll, r1000, sp500, sp400, sp600, ndx, r2000);
      crawled.Err? ==> r == Err(crawled.error)
    ensures var crawled := Crawled(includeAll, r1000, sp500, sp400, sp600, ndx, r2000);
      crawled.Ok? ==>
        var combined := FromListings(crawled.value) + CarriedOver(existing, preserveManual);
        (r.Ok? <==> KeepValid(combined).Ok?)
        && (r.Err? ==> r.error == TypeError)
        && (r.Ok? ==>
              (r.value == KeepFirst(KeepValid(combined).value)
               && (forall c :: c in r.value ==> c in combined && c.ticker.Str? && IsValidUsTicker(c.ticker.s))
               && (forall c :: c in combined && TickerCheck(c.ticker) == Ok(true) ==> c.ticker in TickersOf(r.value))
               && Distinct(TickersOf(r.value))))
  {
    var manual := CarriedOver(existing, preserveManual);
    var crawled := Crawled(includeAll, r1000, sp500, sp400, sp600, ndx, r2000);
    if crawled.Err? {
      return Err(crawled.error);
    }
    var combined := FromListings(crawled.value) + manual;
    var filtered := KeepValid(combined);
    if filtered.Err? {
      return Err(filtered.error);
    }
    var deduped := KeepFirst(filtered.value);
    KeepValidMembers(combined);
    KeepFirstTickers(filtered.value);
    KeepFirstMembers(filtered.value);
    forall c | c in deduped
      ensures c in combined && c.ticker.Str? && IsValidUsTicker(c.ticker.s)
    {
      assert FirstOccurrence(filtered.value, c);
    }
    forall c | c in combined && TickerCheck(c.ticker) == Ok(true)
      ensures c.ticker in TickersOf(deduped)
    {
      var i :| 0 <= i < |filtered.value| && filtered.value[i] == c;
      assert TickersOf(filtered.value)[i] == c.ticker;
    }
    r := Ok(deduped);
  }
}
