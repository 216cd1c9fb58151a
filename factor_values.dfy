/** The factor-value store (database/readwrite/rw_factor_values.py): the
    normalisation of rows before a batch upsert, the upsert on the key
    (instrument_id, date, factor_name, factor_version), and the query builder
    of `get_factor_values`. The table is a map from key to the stored columns;
    dates are day numbers. */
module FactorStore {
  import opened Common

  /** A JSON scalar of `factor_args` / `config`. */
  datatype JsonValue = JInt(i: int) | JReal(x: real) | JStr(s: string)

  /** A JSON object, in key order. */
  type Json = seq<(string, JsonValue)>

  /** A row as `batch_insert_factor_values` sends it to the database. */
  datatype FactorRow = FactorRow(
    instrumentId: int, date: Date, name: string, value: real,
    version: string, args: Json, config: Json, dataSource: string)

  /** A row dict as a caller passes it: every key may be absent. */
  datatype InputRow = InputRow(
    instrumentId: Option<int>, date: Option<Date>, name: Option<string>, value: Option<real>,
    version: Option<string>, args: Option<Json>, config: Option<Json>, dataSource: Option<string>)

  /** The input dict that spells out every field of `r`. */
  function Full(r: FactorRow): InputRow {
    InputRow(Some(r.instrumentId), Some(r.date), Some(r.name), Some(r.value),
             Some(r.version), Some(r.args), Some(r.config), Some(r.dataSource))
  }

  function Or<T>(o: Option<T>, d: T): T {
    if o.Some? then o.value else d
  }

  /** The four keys read with `r[...]` must be present. */
  predicate HasRequired(r: InputRow) {
    r.instrumentId.Some? && r.date.Some? && r.name.Some? && r.value.Some?
  }

  /** The normalisation of one row: the four required keys are read with
      `r[...]` (KeyError when absent); version, args, config and source take
      the defaults "v1", {}, {} and "internal". */
  function Normalize(r: InputRow): (n: Result<FactorRow>)
    ensures n.Err? <==> !HasRequired(r)
    ensures n.Err? ==> n.error == KeyError
    ensures n.Ok? ==> (n.value.instrumentId == r.instrumentId.value && n.value.date == r.date.value
      && n.value.name == r.name.value && n.value.value == r.value.value)
    ensures n.Ok? ==> (n.value.version == (if r.version.Some? then r.version.value else "v1")
      && n.value.args == (if r.args.Some? then r.args.value else [])
      && n.value.config == (if r.config.Some? then r.config.value else [])
      && n.value.dataSource == (if r.dataSource.Some? then r.dataSource.value else "internal"))
  {
    if !HasRequired(r) then Err(KeyError)
    else Ok(FactorRow(r.instrumentId.value, r.date.value, r.name.value, r.value.value,
                      Or(r.version, "v1"), Or(r.args, []), Or(r.config, []), Or(r.dataSource, "internal")))
  }

  /** Normalising a fully specified row gives that row back. */
  lemma {:induction false} NormalizeFull(r: FactorRow)
    ensures Normalize(Full(r)) == Ok(r)
  {
  }

  /** The normalisation loop: the first row missing a required key raises. */
  function NormalizeAll(rows: seq<InputRow>): (r: Result<seq<FactorRow>>)
    ensures r.Ok? ==> |r.value| == |rows|
  {
    if rows == [] then Ok([])
    else
      var init := NormalizeAll(rows[..|rows| - 1]);
      var last := Normalize(rows[|rows| - 1]);
      if init.Err? then init
      else if last.Err? then Err(last.error)
      else Ok(init.value + [last.value])
  }

  /** The loop succeeds iff every row has the required keys, and then returns
      each row normalised, in order. */
  lemma {:induction false} NormalizeAllSpec(rows: seq<InputRow>)
    ensures NormalizeAll(rows).Ok? <==> forall i :: 0 <= i < |rows| ==> HasRequired(rows[i])
    ensures NormalizeAll(rows).Err? ==> NormalizeAll(rows).error == KeyError
    ensures NormalizeAll(rows).Ok? ==>
      forall i :: 0 <= i < |rows| ==> NormalizeAll(rows).value[i] == Normalize(rows[i]).value
  {
    if rows != [] {
      var front := rows[..|rows| - 1];
      NormalizeAllSpec(front);
      assert forall i :: 0 <= i < |front| ==> front[i] == rows[i];
    }
  }

  /** `batch_insert_factor_values`' loop that fills `normalized`. */
  method NormalizeRows(rows: seq<InputRow>) returns (r: Result<seq<FactorRow>>)
    ensures r == NormalizeAll(rows)
  {
    var normalized: seq<FactorRow> := [];
    var i := 0;
    while i < |rows|
      invariant 0 <= i <= |rows|
      invariant NormalizeAll(rows[..i]) == Ok(normalized)
    {
      var n := Normalize(rows[i]);
      assert rows[..i + 1][..i] == rows[..i];
      if n.Err? {
        r := Err(n.error);
        NormalizeAllRaises(rows, i + 1);
        return;
      }
      normalized := normalized + [n.value];
      i := i + 1;
    }
    assert rows[..i] == rows;
    r := Ok(normalized);
  }

  /** Once a prefix fails, the whole loop fails with the same error. */
  lemma {:induction false} NormalizeAllRaises(rows: seq<InputRow>, k: nat)
    requires k <= |rows| && NormalizeAll(rows[..k]).Err?
    ensures NormalizeAll(rows) == NormalizeAll(rows[..k])
    decreases |rows| - k
  {
    if k < |rows| {
      assert rows[..k + 1][..k] == rows[..k];
      NormalizeAllRaises(rows, k + 1);
    } else {
      assert rows[..k] == rows;
    }
  }

  // ------------------------------------------------------------------
  // Upsert on (instrument_id, date, factor_name, factor_version)
  // ------------------------------------------------------------------

  datatype Key = Key(instrumentId: int, date: Date, name: string, version: string)

  /** The columns `ON CONFLICT ... DO UPDATE` overwrites. */
  datatype Entry = Entry(value: real, args: Json, config: Json, dataSource: string)

  type Table = map<Key, Entry>

  function KeyOf(r: FactorRow): Key {
    Key(r.instrumentId, r.date, r.name, r.version)
  }

  function EntryOf(r: FactorRow): Entry {
    Entry(r.value, r.args, r.config, r.dataSource)
  }

  /** `executemany` of the upsert: the rows are applied in order. */
  function UpsertAll(t: Table, rows: seq<FactorRow>): Table
    decreases |rows|
  {
    if rows == [] then t
    else UpsertAll(t[KeyOf(rows[0]) := EntryOf(rows[0])], rows[1..])
  }

  /** The index of the last row with key `k`, if any. */
  function LastWith(rows: seq<FactorRow>, k: Key): (r: Option<nat>)
    ensures r.Some? ==> (r.value < |rows| && KeyOf(rows[r.value]) == k
      && forall j :: r.value < j < |rows| ==> KeyOf(rows[j]) != k)
    ensures r.None? ==> forall j :: 0 <= j < |rows| ==> KeyOf(rows[j]) != k
  {
    if rows == [] then None
    else if KeyOf(rows[|rows| - 1]) == k then Some(|rows| - 1)
    else LastWith(rows[..|rows| - 1], k)
  }

  /** After the upsert a key is stored iff it was stored or some row has it;
      its entry is that of the last row with the key, or the old entry. */
  lemma {:induction false} UpsertAllSpec(t: Table, rows: seq<FactorRow>)
    ensures forall k :: k in UpsertAll(t, rows) <==> k in t || exists j :: 0 <= j < |rows| && KeyOf(rows[j]) == k
    ensures forall k :: k in UpsertAll(t, rows) ==>
      UpsertAll(t, rows)[k] == (if LastWith(rows, k).Some? then EntryOf(rows[LastWith(rows, k).value]) else t[k])
    decreases |rows|
  {
    if rows != [] {
      var t' := t[KeyOf(rows[0]) := EntryOf(rows[0])];
      var rest := rows[1..];
      UpsertAllSpec(t', rest);
      forall k ensures k in UpsertAll(t, rows) <==> k in t || exists j :: 0 <= j < |rows| && KeyOf(rows[j]) == k {
        UpsertKeyStep(t, rows, k);
      }
      forall k | k in UpsertAll(t, rows)
        ensures UpsertAll(t, rows)[k] == (if LastWith(rows, k).Some? then EntryOf(rows[LastWith(rows, k).value]) else t[k])
      {
        UpsertEntryStep(t, rows, k);
      }
    }
  }

  /** `UpsertAllSpec`'s first clause for one key, from the rows after the first. */
  lemma {:induction false} UpsertKeyStep(t: Table, rows: seq<FactorRow>, k: Key)
    requires rows != []
    requires var t', rest := t[KeyOf(rows[0]) := EntryOf(rows[0])], rows[1..];
      k in UpsertAll(t', rest) <==> k in t' || exists j :: 0 <= j < |rest| && KeyOf(rest[j]) == k
    ensures k in UpsertAll(t, rows) <==> k in t || exists j :: 0 <= j < |rows| && KeyOf(rows[j]) == k
  {
    var rest := rows[1..];
    if exists j :: 0 <= j < |rows| && KeyOf(rows[j]) == k {
      var j :| 0 <= j < |rows| && KeyOf(rows[j]) == k;
      if j > 0 {
        assert KeyOf(rest[j - 1]) == k;
      }
    }
    if exists j :: 0 <= j < |rest| && KeyOf(rest[j]) == k {
      var j :| 0 <= j < |rest| && KeyOf(rest[j]) == k;
      assert KeyOf(rows[j + 1]) == k;
    }
  }

  /** `UpsertAllSpec`'s second clause for one key, from the rows after the first. */
  lemma {:induction false} UpsertEntryStep(t: Table, rows: seq<FactorRow>, k: Key)
    requires rows != [] && k in UpsertAll(t, rows)
    requires k in UpsertAll(t, rows) <==> k in t || exists j :: 0 <= j < |rows| && KeyOf(rows[j]) == k
    requires var t', rest := t[KeyOf(rows[0]) := EntryOf(rows[0])], rows[1..];
      k in UpsertAll(t', rest) && UpsertAll(t', rest)[k]
        == (if LastWith(rest, k).Some? then EntryOf(rest[LastWith(rest, k).value]) else t'[k])
    ensures UpsertAll(t, rows)[k] == (if LastWith(rows, k).Some? then EntryOf(rows[LastWith(rows, k).value]) else t[k])
  {
    LastWithTail(rows, k);
  }

  /** How the last row with a key relates to the rows after the first. */
  lemma {:induction false} LastWithTail(rows: seq<FactorRow>, k: Key)
    requires rows != []
    ensures LastWith(rows[1..], k).Some? ==> LastWith(rows, k) == Some(LastWith(rows[1..], k).value + 1)
    ensures LastWith(rows[1..], k).None? ==> LastWith(rows, k) == (if KeyOf(rows[0]) == k then Some(0) else None)
  {
    var a := LastWith(rows, k);
    var b := LastWith(rows[1..], k);
    if b.Some? {
      assert KeyOf(rows[b.value + 1]) == k;
      LastWithUnique(rows, k, b.value + 1);
    } else if KeyOf(rows[0]) == k {
      LastWithUnique(rows, k, 0);
    }
  }

  /** The last index with key `k` is the one no later row shares. */
  lemma {:induction false} LastWithUnique(rows: seq<FactorRow>, k: Key, i: nat)
    requires i < |rows| && KeyOf(rows[i]) == k
    requires forall j :: i < j < |rows| ==> KeyOf(rows[j]) != k
    ensures LastWith(rows, k) == Some(i)
  {
    var a := LastWith(rows, k);
    assert a.Some?;
  }

  /** Writing the same rows again changes nothing: a re-insert overwrites
      and never duplicates. */
  lemma {:induction false} UpsertAllIdempotent(t: Table, rows: seq<FactorRow>)
    ensures UpsertAll(UpsertAll(t, rows), rows) == UpsertAll(t, rows)
  {
    var once := UpsertAll(t, rows);
    UpsertAllSpec(t, rows);
    UpsertAllSpec(once, rows);
    var twice := UpsertAll(once, rows);
    assert forall k :: k in twice <==> k in once;
    forall k | k in twice ensures twice[k] == once[k] {
      if LastWith(rows, k).None? {
        assert twice[k] == once[k];
      }
    }
  }

  /** What one call of `batch_insert_factor_values` did: the new table and
      whether a statement was issued. */
  datatype Written = Written(table: Table, issued: bool)

  /** `batch_insert_factor_values`: an empty list issues no statement; a row
      without a required key raises before any statement. */
  function BatchInsert(t: Table, rows: seq<InputRow>): (r: Result<Written>)
  {
    if rows == [] then Ok(Written(t, false))
    else
      var n := NormalizeAll(rows);
      if n.Err? then Err(n.error) else Ok(Written(UpsertAll(t, n.value), true))
  }

  /** A batch is written iff every row has the required keys; an empty or
      failed batch leaves the table as it was, and a written one stores every
      row's key with the entry of the last row carrying it. */
  lemma {:induction false} BatchInsertSpec(t: Table, rows: seq<InputRow>)
    ensures BatchInsert(t, rows).Ok? <==> forall i :: 0 <= i < |rows| ==> HasRequired(rows[i])
    ensures rows == [] ==> BatchInsert(t, rows) == Ok(Written(t, false))
    ensures rows != [] && BatchInsert(t, rows).Ok? ==> BatchInsert(t, rows).value.issued
    ensures BatchInsert(t, rows).Ok? ==>
      forall i :: 0 <= i < |rows| ==> KeyOf(Normalize(rows[i]).value) in BatchInsert(t, rows).value.table
    ensures BatchInsert(t, rows).Ok? ==>
      forall k :: k in BatchInsert(t, rows).value.table ==>
        k in t || exists i :: 0 <= i < |rows| && KeyOf(Normalize(rows[i]).value) == k
  {
    NormalizeAllSpec(rows);
    if rows != [] && NormalizeAll(rows).Ok? {
      var n := NormalizeAll(rows).value;
      UpsertAllSpec(t, n);
      forall i | 0 <= i < |rows| ensures KeyOf(Normalize(rows[i]).value) in BatchInsert(t, rows).value.table {
        assert KeyOf(n[i]) == KeyOf(Normalize(rows[i]).value);
      }
      forall k | k in BatchInsert(t, rows).value.table
        ensures k in t || exists i :: 0 <= i < |rows| && KeyOf(Normalize(rows[i]).value) == k
      {
        if k !in t {
          var j :| 0 <= j < |n| && KeyOf(n[j]) == k;
          assert KeyOf(Normalize(rows[j]).value) == k;
        }
      }
    }
  }

  // ------------------------------------------------------------------
  // The query of `get_factor_values`
  // ------------------------------------------------------------------

  /** The keyword arguments of `get_factor_values`; `None` is "not given". */
  datatype QueryArgs = QueryArgs(
    factorName: Option<string>, factorNames: Option<seq<string>>, factorVersion: Option<string>,
    instrumentId: Option<int>, instrumentIds: Option<seq<int>>,
    startDate: Option<Date>, endDate: Option<Date>, date: Option<Date>)

  /** One `AND` clause together with its parameter. */
  datatype Filter =
    | NameIs(name: string) | NameIn(names: seq<string>) | VersionIs(version: string)
    | IdIs(id: int) | IdIn(ids: seq<int>)
    | DateIs(day: Date) | DateFrom(from: Date) | DateTo(to: Date)

  datatype Param = PText(s: string) | PTexts(ss: seq<string>) | PInt(i: int) | PInts(ints: seq<int>) | PDate(d: Date)

  function ClauseSql(f: Filter): string {
    match f
    case NameIs(_) => " AND factor_name = %s"
    case NameIn(_) => " AND factor_name = ANY(%s)"
    case VersionIs(_) => " AND factor_version = %s"
    case IdIs(_) => " AND instrument_id = %s"
    case IdIn(_) => " AND instrument_id = ANY(%s)"
    case DateIs(_) => " AND date = %s"
    case DateFrom(_) => " AND date >= %s"
    case DateTo(_) => " AND date <= %s"
  }

  /** Each clause takes one parameter; a list filter passes the whole list. */
  function ParamOf(f: Filter): Param {
    match f
    case NameIs(n) => PText(n)
    case NameIn(ns) => PTexts(ns)
    case VersionIs(v) => PText(v)
    case IdIs(i) => PInt(i)
    case IdIn(ns) => PInts(ns)
    case DateIs(d) => PDate(d)
    case DateFrom(d) => PDate(d)
    case DateTo(d) => PDate(d)
  }

  /** The position of a clause kind in the query. */
  function Slot(f: Filter): nat {
    match f
    case NameIs(_) => 0
    case NameIn(_) => 0
    case VersionIs(_) => 1
    case IdIs(_) => 2
    case IdIn(_) => 2
    case DateIs(_) => 3
    case DateFrom(_) => 3
    case DateTo(_) => 4
  }

  /** The argument combinations that raise ValueError: a pair of mutually
      exclusive arguments given together, or an empty list. */
  predicate BadArgs(a: QueryArgs) {
    (a.factorName.Some? && a.factorNames.Some?)
    || (a.factorName.None? && a.factorNames.Some? && a.factorNames.value == [])
    || (a.instrumentId.Some? && a.instrumentIds.Some?)
    || (a.instrumentId.None? && a.instrumentIds.Some? && a.instrumentIds.value == [])
    || (a.date.Some? && (a.startDate.Some? || a.endDate.Some?))
  }

  function NameFilters(a: QueryArgs): seq<Filter> {
    if a.factorName.Some? then [NameIs(a.factorName.value)]
    else if a.factorNames.Some? then [NameIn(a.factorNames.value)]
    else []
  }

  function IdFilters(a: QueryArgs): seq<Filter> {
    if a.instrumentId.Some? then [IdIs(a.instrumentId.value)]
    else if a.instrumentIds.Some? then [IdIn(a.instrumentIds.value)]
    else []
  }

  function DateFilters(a: QueryArgs): seq<Filter> {
    if a.date.Some? then [DateIs(a.date.value)]
    else
      (if a.startDate.Some? then [DateFrom(a.startDate.value)] else [])
      + (if a.endDate.Some? then [DateTo(a.endDate.value)] else [])
  }

  /** The clauses `get_factor_values` adds, in order. */
  function Plan(a: QueryArgs): Result<seq<Filter>> {
    if BadArgs(a) then Err(ValueError)
    else Ok(NameFilters(a) + VersionFilters(a) + IdFilters(a) + DateFilters(a))
  }

  datatype Query = Query(sql: string, params: seq<Param>)

  const SelectAll := "SELECT * FROM factor_values WHERE 1=1"
  const OrderBy := " ORDER BY date, instrument_id"

  function Clauses(fs: seq<Filter>): string {
    if fs == [] then "" else Clauses(fs[..|fs| - 1]) + ClauseSql(fs[|fs| - 1])
  }

  function Params(fs: seq<Filter>): (ps: seq<Param>)
    ensures |ps| == |fs| && forall i :: 0 <= i < |fs| ==> ps[i] == ParamOf(fs[i])
  {
    if fs == [] then [] else Params(fs[..|fs| - 1]) + [ParamOf(fs[|fs| - 1])]
  }

  function Render(fs: seq<Filter>): Query {
    Query(SelectAll + Clauses(fs) + OrderBy, Params(fs))
  }

  /** `get_factor_values` up to the `execute`: it grows the query text and
      the parameter list one clause at a time. */
  method BuildQuery(a: QueryArgs) returns (r: Result<Query>)
    ensures r.Err? <==> Plan(a).Err?
    ensures r.Err? ==> r.error == ValueError
    ensures r.Ok? ==> r.value == Render(Plan(a).value)
  {
    var query := SelectAll;
    var params: seq<Param> := [];
    ghost var fs: seq<Filter> := [];
    var bad: bool;

    bad, query, params, fs := AddNames(a, query, params, fs);
    if bad {
      return Err(ValueError);
    }
    assert fs == NameFilters(a);
    ghost var v := VersionFilters(a);
    if a.factorVersion.Some? {
      query, params, fs := Add(query, params, fs, VersionIs(a.factorVersion.value));
    }
    assert fs == NameFilters(a) + v;
    bad, query, params, fs := AddIds(a, query, params, fs);
    if bad {
      return Err(ValueError);
    }
    bad, query, params, fs := AddDates(a, query, params, fs);
    if bad {
      return Err(ValueError);
    }
    assert fs == NameFilters(a) + v + IdFilters(a) + DateFilters(a);
    assert !BadArgs(a);
    query := query + OrderBy;
    r := Ok(Query(query, params));
  }

  /** The factor-name step: a name and a list together, or an empty list,
      raise. */
  method AddNames(a: QueryArgs, query: string, params: seq<Param>, ghost fs: seq<Filter>)
    returns (bad: bool, query': string, params': seq<Param>, ghost fs': seq<Filter>)
    requires query == SelectAll + Clauses(fs) && params == Params(fs)
    ensures bad <==> ((a.factorName.Some? && a.factorNames.Some?)
      || (a.factorName.None? && a.factorNames.Some? && a.factorNames.value == []))
    ensures !bad ==> fs' == fs + NameFilters(a) && query' == SelectAll + Clauses(fs') && params' == Params(fs')
  {
    bad, query', params', fs' := false, query, params, fs;
    if a.factorName.Some? && a.factorNames.Some? {
      bad := true;
    } else if a.factorName.Some? {
      query', params', fs' := Add(query, params, fs, NameIs(a.factorName.value));
    } else if a.factorNames.Some? {
      if |a.factorNames.value| == 0 {
        bad := true;
      } else {
        query', params', fs' := Add(query, params, fs, NameIn(a.factorNames.value));
      }
    } else {
      assert fs' == fs + [];
    }
  }

  /** The instrument step, checked like the name step. */
  method AddIds(a: QueryArgs, query: string, params: seq<Param>, ghost fs: seq<Filter>)
    returns (bad: bool, query': string, params': seq<Param>, ghost fs': seq<Filter>)
    requires query == SelectAll + Clauses(fs) && params == Params(fs)
    ensures bad <==> ((a.instrumentId.Some? && a.instrumentIds.Some?)
      || (a.instrumentId.None? && a.instrumentIds.Some? && a.instrumentIds.value == []))
    ensures !bad ==> fs' == fs + IdFilters(a) && query' == SelectAll + Clauses(fs') && params' == Params(fs')
  {
    bad, query', params', fs' := false, query, params, fs;
    if a.instrumentId.Some? && a.instrumentIds.Some? {
      bad := true;
    } else if a.instrumentId.Some? {
      query', params', fs' := Add(query, params, fs, IdIs(a.instrumentId.value));
    } else if a.instrumentIds.Some? {
      if |a.instrumentIds.value| == 0 {
        bad := true;
      } else {
        query', params', fs' := Add(query, params, fs, IdIn(a.instrumentIds.value));
      }
    } else {
      assert fs' == fs + [];
    }
  }

  /** The date step: an exact date excludes a range bound. */
  method AddDates(a: QueryArgs, query: string, params: seq<Param>, ghost fs: seq<Filter>)
    returns (bad: bool, query': string, params': seq<Param>, ghost fs': seq<Filter>)
    requires query == SelectAll + Clauses(fs) && params == Params(fs)
    ensures bad <==> a.date.Some? && (a.startDate.Some? || a.endDate.Some?)
    ensures !bad ==> fs' == fs + DateFilters(a) && query' == SelectAll + Clauses(fs') && params' == Params(fs')
  {
    bad, query', params', fs' := false, query, params, fs;
    if a.date.Some? && (a.startDate.Some? || a.endDate.Some?) {
      bad := true;
    } else if a.date.Some? {
      query', params', fs' := Add(query, params, fs, DateIs(a.date.value));
    } else {
      query', params', fs' := AddRange(a, query, params, fs);
    }
  }

  /** The range bounds, start before end. */
  method AddRange(a: QueryArgs, query: string, params: seq<Param>, ghost fs: seq<Filter>)
    returns (query': string, params': seq<Param>, ghost fs': seq<Filter>)
    requires a.date.None? && query == SelectAll + Clauses(fs) && params == Params(fs)
    ensures fs' == fs + DateFilters(a) && query' == SelectAll + Clauses(fs') && params' == Params(fs')
  {
    query', params', fs' := query, params, fs;
    ghost var s: seq<Filter> := if a.startDate.Some? then [DateFrom(a.startDate.value)] else [];
    if a.startDate.Some? {
      query', params', fs' := Add(query', params', fs', DateFrom(a.startDate.value));
    }
    assert fs' == fs + s;
    if a.endDate.Some? {
      query', params', fs' := Add(query', params', fs', DateTo(a.endDate.value));
      assert fs' == fs + s + [DateTo(a.endDate.value)];
    }
    assert DateFilters(a) == s + (if a.endDate.Some? then [DateTo(a.endDate.value)] else []);
  }

  /** One `query += ...; params.append(...)` step. */
  method Add(query: string, params: seq<Param>, ghost fs: seq<Filter>, f: Filter)
    returns (query': string, params': seq<Param>, ghost fs': seq<Filter>)
    requires query == SelectAll + Clauses(fs) && params == Params(fs)
    ensures fs' == fs + [f] && query' == SelectAll + Clauses(fs') && params' == Params(fs')
  {
    fs' := fs + [f];
    assert fs'[..|fs'| - 1] == fs;
    assert Clauses(fs') == Clauses(fs) + ClauseSql(f);
    query' := query + ClauseSql(f);
    Associative(SelectAll, Clauses(fs), ClauseSql(f));
    params' := params + [ParamOf(f)];
  }

  lemma {:induction false} Associative(a: string, b: string, c: string)
    ensures (a + b) + c == a + (b + c)
  {
  }

  /** A stored key passes a clause. */
  predicate Passes(f: Filter, k: Key) {
    match f
    case NameIs(n) => k.name == n
    case NameIn(ns) => k.name in ns
    case VersionIs(v) => k.version == v
    case IdIs(i) => k.instrumentId == i
    case IdIn(ns) => k.instrumentId in ns
    case DateIs(d) => k.date == d
    case DateFrom(d) => k.date >= d
    case DateTo(d) => k.date <= d
  }

  /** The rows the caller asks for, stated on the arguments directly. */
  predicate Wanted(a: QueryArgs, k: Key) {
    (a.factorName.Some? ==> k.name == a.factorName.value)
    && (a.factorName.None? && a.factorNames.Some? ==> k.name in a.factorNames.value)
    && (a.factorVersion.Some? ==> k.version == a.factorVersion.value)
    && (a.instrumentId.Some? ==> k.instrumentId == a.instrumentId.value)
    && (a.instrumentId.None? && a.instrumentIds.Some? ==> k.instrumentId in a.instrumentIds.value)
    && (a.date.Some? ==> k.date == a.date.value)
    && (a.startDate.Some? ==> k.date >= a.startDate.value)
    && (a.endDate.Some? ==> k.date <= a.endDate.value)
  }

  /** Every clause of the list passes. */
  predicate AllPass(fs: seq<Filter>, k: Key) {
    forall i :: 0 <= i < |fs| ==> Passes(fs[i], k)
  }

  function VersionFilters(a: QueryArgs): seq<Filter> {
    if a.factorVersion.Some? then [VersionIs(a.factorVersion.value)] else []
  }

  /** The query fails exactly on the bad combinations; otherwise its clauses
      keep exactly the rows the arguments ask for. */
  lemma {:induction false} PlanSelects(a: QueryArgs, k: Key)
    ensures Plan(a).Err? <==> BadArgs(a)
    ensures Plan(a).Ok? ==> (AllPass(Plan(a).value, k) <==> Wanted(a, k))
  {
    if !BadArgs(a) {
      var n, v, d, t := NameFilters(a), VersionFilters(a), IdFilters(a), DateFilters(a);
      assert Plan(a).value == n + v + d + t;
      AllPassConcat(n + v + d, t, k);
      AllPassConcat(n + v, d, k);
      AllPassConcat(n, v, k);
      NamePass(a, k);
      DatePass(a, k);
      assert AllPass(v, k) <==> (a.factorVersion.Some? ==> k.version == a.factorVersion.value) by {
        if v != [] { assert v[0] in v; }
      }
      assert AllPass(d, k) <==> ((a.instrumentId.Some? ==> k.instrumentId == a.instrumentId.value)
        && (a.instrumentId.None? && a.instrumentIds.Some? ==> k.instrumentId in a.instrumentIds.value)) by {
        if d != [] { assert d[0] in d; }
      }
    }
  }

  lemma {:induction false} NamePass(a: QueryArgs, k: Key)
    ensures AllPass(NameFilters(a), k) <==> ((a.factorName.Some? ==> k.name == a.factorName.value)
      && (a.factorName.None? && a.factorNames.Some? ==> k.name in a.factorNames.value))
  {
    var n := NameFilters(a);
    if n != [] { assert n[0] in n; }
  }

  lemma {:induction false} DatePass(a: QueryArgs, k: Key)
    requires !(a.date.Some? && (a.startDate.Some? || a.endDate.Some?))
    ensures AllPass(DateFilters(a), k) <==> ((a.date.Some? ==> k.date == a.date.value)
      && (a.startDate.Some? ==> k.date >= a.startDate.value)
      && (a.endDate.Some? ==> k.date <= a.endDate.value))
  {
    var t := DateFilters(a);
    if a.date.None? {
      var s: seq<Filter> := if a.startDate.Some? then [DateFrom(a.startDate.value)] else [];
      var e: seq<Filter> := if a.endDate.Some? then [DateTo(a.endDate.value)] else [];
      assert t == s + e;
      AllPassConcat(s, e, k);
      assert AllPass(s, k) <==> (a.startDate.Some? ==> k.date >= a.startDate.value) by {
        if s != [] { assert s[0] in s; }
      }
      assert AllPass(e, k) <==> (a.endDate.Some? ==> k.date <= a.endDate.value) by {
        if e != [] { assert e[0] in e; }
      }
    } else {
      assert t[0] in t;
    }
  }

  /** The clauses appear in the order name(s), version, instrument(s), date
      or range start, range end, and each kind at most once. */
  lemma {:induction false} PlanOrder(a: QueryArgs)
    ensures Plan(a).Ok? ==> forall i, j :: 0 <= i < j < |Plan(a).value| ==> Slot(Plan(a).value[i]) < Slot(Plan(a).value[j])
  {
    if !BadArgs(a) {
      var n, v, d, t := NameFilters(a), VersionFilters(a), IdFilters(a), DateFilters(a);
      assert Plan(a).value == n + v + d + t;
      PartSlots(a);
      SlotsJoin(n, v, 1, 2);
      SlotsJoin(n + v, d, 2, 3);
      SlotsJoin(n + v + d, t, 3, 5);
    }
  }

  /** Each kind of clause sits in its own slot, the range start before the end. */
  lemma {:induction false} PartSlots(a: QueryArgs)
    ensures var n, v, d, t := NameFilters(a), VersionFilters(a), IdFilters(a), DateFilters(a);
      SlotsIncrease(n) && SlotsIncrease(v) && SlotsIncrease(d) && SlotsIncrease(t)
      && (forall i :: 0 <= i < |n| ==> Slot(n[i]) < 1)
      && (forall i :: 0 <= i < |v| ==> 1 <= Slot(v[i]) < 2)
      && (forall i :: 0 <= i < |d| ==> 2 <= Slot(d[i]) < 3)
      && (forall i :: 0 <= i < |t| ==> 3 <= Slot(t[i]) < 5)
  {
    var t := DateFilters(a);
    assert |t| == 2 ==> Slot(t[0]) == 3 && Slot(t[1]) == 4;
  }

  /** The slots strictly increase along `fs`. */
  ghost predicate SlotsIncrease(fs: seq<Filter>) {
    forall i, j :: 0 <= i < j < |fs| ==> Slot(fs[i]) < Slot(fs[j])
  }

  /** Two runs of increasing slots, all of the first below `b` and all of the
      second from `b` up to `c`, join into one below `c`. */
  lemma {:induction false} SlotsJoin(xs: seq<Filter>, ys: seq<Filter>, b: nat, c: nat)
    requires SlotsIncrease(xs) && SlotsIncrease(ys)
    requires forall i :: 0 <= i < |xs| ==> Slot(xs[i]) < b
    requires b <= c && forall j :: 0 <= j < |ys| ==> b <= Slot(ys[j]) < c
    ensures SlotsIncrease(xs + ys)
    ensures forall k :: 0 <= k < |xs + ys| ==> Slot((xs + ys)[k]) < c
  {
    var zs := xs + ys;
    forall k | 0 <= k < |zs| ensures Slot(zs[k]) < c {
      if k < |xs| {
        assert zs[k] == xs[k];
      } else {
        assert zs[k] == ys[k - |xs|];
      }
    }
    forall i, j | 0 <= i < j < |zs| ensures Slot(zs[i]) < Slot(zs[j]) {
      if j < |xs| {
        assert zs[i] == xs[i] && zs[j] == xs[j];
      } else if i >= |xs| {
        assert zs[i] == ys[i - |xs|] && zs[j] == ys[j - |xs|];
      } else {
        assert zs[i] == xs[i] && zs[j] == ys[j - |xs|];
      }
    }
  }

  lemma {:induction false} AllPassConcat(xs: seq<Filter>, ys: seq<Filter>, k: Key)
    ensures AllPass(xs + ys, k) <==> AllPass(xs, k) && AllPass(ys, k)
  {
    if AllPass(xs, k) && AllPass(ys, k) {
      forall i | 0 <= i < |xs + ys| ensures Passes((xs + ys)[i], k) {
        if i >= |xs| {
          assert (xs + ys)[i] == ys[i - |xs|];
        }
      }
    }
    if AllPass(xs + ys, k) {
      forall i | 0 <= i < |ys| ensures Passes(ys[i], k) {
        assert (xs + ys)[|xs| + i] == ys[i];
      }
      forall i | 0 <= i < |xs| ensures Passes(xs[i], k) {
        assert (xs + ys)[i] == xs[i];
      }
    }
  }

  /** The clause text of a query is its clauses in order, framed by the
      select and the fixed ordering. */
  lemma {:induction false} RenderShape(fs: seq<Filter>)
    ensures Render(fs).sql[..|SelectAll|] == SelectAll
    ensures Render(fs).sql[|Render(fs).sql| - |OrderBy|..] == OrderBy
  {
    var s := Render(fs).sql;
    assert s == SelectAll + Clauses(fs) + OrderBy;
    assert s[..|SelectAll|] == SelectAll;
    assert s[|s| - |OrderBy|..] == OrderBy;
  }

  /** The call of the test module: name, version, one instrument and a date
      range give five parameters in that order. */
  lemma {:induction false} QueryExample()
    ensures var a := QueryArgs(Some("mom_21d"), None, Some("v1"), Some(1), None, Some(20454), Some(20484), None);
      Plan(a).Ok? && Render(Plan(a).value).params == [PText("mom_21d"), PText("v1"), PInt(1), PDate(20454), PDate(20484)]
  {
    var a := QueryArgs(Some("mom_21d"), None, Some("v1"), Some(1), None, Some(20454), Some(20484), None);
    var fs := [NameIs("mom_21d"), VersionIs("v1"), IdIs(1), DateFrom(20454), DateTo(20484)];
    assert Plan(a).value == fs;
    assert Params(fs[..4]) == [PText("mom_21d"), PText("v1"), PInt(1), PDate(20454)] by {
      assert fs[..4][..3] == fs[..3];
      assert fs[..3][..2] == fs[..2];
      assert fs[..2][..1] == fs[..1];
    }
    assert fs[..|fs| - 1] == fs[..4];
  }
}
