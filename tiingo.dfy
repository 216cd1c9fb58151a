/** The conversion of a Tiingo daily-price response into market-price rows,
    `transform_tiingo_to_db_format` in data_download/input/tiingo_downloader.py
    and its copy `transform_tiingo_price_data_to_db_format` in
    data_download/input/price_downloader.py. */
module TiingoRecords {
  import opened Common
  import opened Text

  /** A JSON value of a response element; `Null` is JSON `null`. */
  datatype Value = Num(x: real) | Str(s: string) | Null

  /** One element of a Tiingo response: a JSON object. */
  type Raw = map<string, Value>

  /** `record.get(key, default)`: the stored value (JSON `null` included)
      when the key is present, the default otherwise. */
  function GetOr(rec: Raw, key: string, default: Value): (v: Value)
    ensures key in rec ==> v == rec[key]
    ensures key !in rec ==> v == default
  {
    if key in rec then rec[key] else default
  }

  /** A `market_prices` row as the downloader builds it. */
  datatype PriceRow = PriceRow(instrumentId: int, date: string,
                               openPrice: Value, highPrice: Value, lowPrice: Value, closePrice: Value, volume: Value,
                               adjOpen: Value, adjHigh: Value, adjLow: Value, adjClose: Value, adjVolume: Value,
                               dividends: Value, stockSplits: Value, dataSource: string)

  /** `record["date"][:10]`: the first ten characters of the date text;
      a `KeyError` when the key is missing and a `TypeError` when the value
      is not a string. */
  function DateText(rec: Raw): (r: Result<string>)
    ensures r.Ok? <==> "date" in rec && rec["date"].Str?
    ensures r.Err? ==> r.error == (if "date" in rec then TypeError else KeyError)
    ensures r.Ok? ==> (StartsWith(rec["date"].s, r.value)
      && |r.value| == (if |rec["date"].s| < 10 then |rec["date"].s| else 10))
  {
    if "date" !in rec then Err(KeyError)
    else if !rec["date"].Str? then Err(TypeError)
    else Ok(Take(rec["date"].s, 10))
  }

  const OhlcvKeys: seq<string> :=
    ["open", "high", "low", "close", "volume", "adjOpen", "adjHigh", "adjLow", "adjClose", "adjVolume"]

  /** The ten price and volume fields of a row, in the order of `OhlcvKeys`. */
  function Ohlcv(row: PriceRow): seq<Value> {
    [row.openPrice, row.highPrice, row.lowPrice, row.closePrice, row.volume,
     row.adjOpen, row.adjHigh, row.adjLow, row.adjClose, row.adjVolume]
  }

  /** The row built from one response element. */
  function Convert(rec: Raw, id: int): (r: Result<PriceRow>)
    ensures r.Ok? <==> DateText(rec).Ok?
    ensures r.Err? ==> r.error == DateText(rec).error
  {
    var date :- DateText(rec);
    Ok(PriceRow(id, date,
                GetOr(rec, "open", Null), GetOr(rec, "high", Null), GetOr(rec, "low", Null),
                GetOr(rec, "close", Null), GetOr(rec, "volume", Null),
                GetOr(rec, "adjOpen", Null), GetOr(rec, "adjHigh", Null), GetOr(rec, "adjLow", Null),
                GetOr(rec, "adjClose", Null), GetOr(rec, "adjVolume", Null),
                GetOr(rec, "divCash", Num(0.0)), GetOr(rec, "splitFactor", Num(1.0)), "tiingo"))
  }

  /** A converted row belongs to the instrument, comes from "tiingo", and
      carries every price field of the element, a missing one as `Null`
      (no error); a missing dividend is 0 and a missing split factor 1. */
  lemma {:induction false} ConvertFields(rec: Raw, id: int)
    requires Convert(rec, id).Ok?
    ensures var row := Convert(rec, id).value;
      (row.instrumentId == id && row.dataSource == "tiingo" && row.date == DateText(rec).value
      && (forall k :: 0 <= k < 10 ==> Ohlcv(row)[k] == (if OhlcvKeys[k] in rec then rec[OhlcvKeys[k]] else Null))
      && row.dividends == (if "divCash" in rec then rec["divCash"] else Num(0.0))
      && row.stockSplits == (if "splitFactor" in rec then rec["splitFactor"] else Num(1.0)))
  {
    var row := Convert(rec, id).value;
    forall k | 0 <= k < 10
      ensures Ohlcv(row)[k] == (if OhlcvKeys[k] in rec then rec[OhlcvKeys[k]] else Null)
    {
      assert OhlcvKeys[k] == ["open", "high", "low", "close", "volume", "adjOpen", "adjHigh", "adjLow", "adjClose", "adjVolume"][k];
    }
  }

  /** Every element has a usable date. */
  predicate DatesOk(recs: seq<Raw>) {
    forall i :: 0 <= i < |recs| ==> DateText(recs[i]).Ok?
  }

  /** `transform_tiingo_to_db_format`: one row per element, in order; the
      first element without a usable date raises. */
  function Transform(recs: seq<Raw>, id: int): (r: Result<seq<PriceRow>>)
    ensures r.Ok? <==> DatesOk(recs)
    ensures r.Ok? ==> |r.value| == |recs|
    ensures r.Ok? ==> forall i :: 0 <= i < |recs| ==> Convert(recs[i], id) == Ok(r.value[i])
  {
    if recs == [] then Ok([])
    else
      var init :- Transform(recs[..|recs| - 1], id);
      var row :- Convert(recs[|recs| - 1], id);
      assert forall i :: 0 <= i < |recs| - 1 ==> recs[..|recs| - 1][i] == recs[i];
      Ok(init + [row])
  }

  /** A failing transform raises the error of the first bad element. */
  lemma {:induction false} TransformRaisesFirst(recs: seq<Raw>, id: int, j: nat)
    requires j < |recs| && DateText(recs[j]).Err? && DatesOk(recs[..j])
    ensures Transform(recs, id) == Err(DateText(recs[j]).error)
    decreases |recs|
  {
    var n := |recs|;
    if j < n - 1 {
      assert recs[..n - 1][..j] == recs[..j];
      TransformRaisesFirst(recs[..n - 1], id, j);
    } else {
      assert recs[..n - 1] == recs[..j];
      assert DatesOk(recs[..n - 1]);
    }
  }

  /** Every row of a successful transform belongs to the instrument and
      comes from "tiingo". */
  lemma {:induction false} TransformOwner(recs: seq<Raw>, id: int)
    requires Transform(recs, id).Ok?
    ensures forall i :: 0 <= i < |recs| ==>
      (Transform(recs, id).value[i].instrumentId == id && Transform(recs, id).value[i].dataSource == "tiingo")
  {
    forall i | 0 <= i < |recs|
      ensures Transform(recs, id).value[i].instrumentId == id && Transform(recs, id).value[i].dataSource == "tiingo"
    {
      ConvertFields(recs[i], id);
    }
  }

  /** The append loop of `transform_tiingo_price_data_to_db_format`. */
  method TransformLoop(recs: seq<Raw>, id: int) returns (r: Result<seq<PriceRow>>)
    ensures r == Transform(recs, id)
  {
    var rows: seq<PriceRow> := [];
    var i := 0;
    while i < |recs|
      invariant 0 <= i <= |recs|
      invariant Transform(recs[..i], id) == Ok(rows)
    {
      assert recs[..i + 1][..i] == recs[..i];
      var row := Convert(recs[i], id);
      if row.Err? {
        TransformRaisesFirst(recs, id, i);
        return Err(row.error);
      }
      rows := rows + [row.value];
      i := i + 1;
    }
    assert recs[..i] == recs;
    r := Ok(rows);
  }
}
