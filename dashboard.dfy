/**
 * District configuration and the assembly of one dashboard record per
 * district (app.py, DISTRICTS and load_all_data). Reading a CSV file is
 * abstracted as a lookup in `files`, from file name to the parsed frame;
 * a name that is absent stands for a file that could not be read.
 */
module Dashboard {
  import opened Wrappers
  import opened Risk

  /** One entry of the district table. */
  datatype DistrictConfig = DistrictConfig(
    name: string, lat: real, lon: real, file: string,
    threshold: int, model: string, acc: string)

  /** The monitored districts, in the order the table lists them. */
  const Districts: seq<DistrictConfig> := [
    DistrictConfig("Colombo", 6.9271, 79.8612, "FINAL_DASHBOARD_colombo.csv",
                   2000, "Hybrid Ensemble", "72.4%"),
    DistrictConfig("Katugastota", 7.3256, 80.6211, "FINAL_DASHBOARD_katugastota.csv",
                   300, "XGBoost ML", "84.9%"),
    DistrictConfig("Ratnapura", 6.6828, 80.3990, "FINAL_DASHBOARD_ratnapura.csv",
                   400, "Gradient Boost", "61.3%")
  ]

  /** The configured table is keyed by name, and every threshold is positive. */
  lemma DistrictsWellFormed()
    ensures |Districts| == 3
    ensures forall i, j :: 0 <= i < j < |Districts| ==> Districts[i].name != Districts[j].name
    ensures forall i :: 0 <= i < |Districts| ==> Districts[i].threshold > 0
  {
  }

  /**
   * A parsed CSV file: each column name maps to the column's values from
   * the first row to the last, already rounded to integers.
   */
  type Frame = map<string, seq<int>>

  const PredictedCases := "predicted_cases"
  const PredictedPlain := "predicted"

  /** The column read for the forecast: `predicted_cases` when present, else `predicted`. */
  function PredictedColumn(columns: set<string>): (c: string)
    ensures c == PredictedCases <==> PredictedCases in columns
    ensures c == PredictedPlain <==> PredictedCases !in columns
  {
    if PredictedCases in columns then PredictedCases else PredictedPlain
  }

  /**
   * The last value of the predicted column, or None where the source
   * raises: the chosen column is missing (KeyError) or the frame has no
   * rows (IndexError).
   */
  function LastPredicted(frame: Frame): (r: Option<int>)
    ensures PredictedCases in frame ==>
      (r.Some? <==> |frame[PredictedCases]| > 0) &&
      (r.Some? ==> r.value == frame[PredictedCases][|frame[PredictedCases]| - 1])
    ensures PredictedCases !in frame && PredictedPlain in frame ==>
      (r.Some? <==> |frame[PredictedPlain]| > 0) &&
      (r.Some? ==> r.value == frame[PredictedPlain][|frame[PredictedPlain]| - 1])
    ensures PredictedCases !in frame && PredictedPlain !in frame ==> r == None
  {
    var col := PredictedColumn(frame.Keys);
    if col in frame && |frame[col]| > 0 then Some(frame[col][|frame[col]| - 1]) else None
  }

  /** A district's forecast: its file's last predicted value, if the file loads. */
  function Forecast(d: DistrictConfig, files: map<string, Frame>): (r: Option<int>)
    ensures d.file !in files ==> r == None
    ensures d.file in files ==> r == LastPredicted(files[d.file])
  {
    if d.file in files then LastPredicted(files[d.file]) else None
  }

  /** One row of the dashboard. */
  datatype Record = Record(
    name: string, lat: real, lon: real, cases: int,
    status: Tier, color: Rgba, model: string, acc: string)

  /**
   * `r` is the record built for district `d`: the descriptive fields are
   * copied from the configuration, and status and colour are the
   * classification of its case count against the district's threshold.
   */
  predicate Describes(r: Record, d: DistrictConfig)
  {
    && r.name == d.name && r.lat == d.lat && r.lon == d.lon
    && r.model == d.model && r.acc == d.acc
    && Assessment(r.status, r.color) == Classify(r.cases, d.threshold)
  }

  /** The record of one district, or None when its load fails. */
  function LoadRecord(d: DistrictConfig, files: map<string, Frame>): (r: Option<Record>)
    ensures r.Some? <==> Forecast(d, files).Some?
    ensures r.Some? ==> Describes(r.value, d) && r.value.cases == Forecast(d, files).value
  {
    match Forecast(d, files)
    case None => None
    case Some(val) =>
      var a := Classify(val, d.threshold);
      Some(Record(d.name, d.lat, d.lon, val, a.tier, a.color, d.model, d.acc))
  }

  /** The records of the districts that load, in table order. */
  function Assemble(ds: seq<DistrictConfig>, files: map<string, Frame>): (out: seq<Record>)
    ensures |out| <= |ds|
  {
    if ds == [] then []
    else
      var front := Assemble(ds[..|ds| - 1], files);
      match LoadRecord(ds[|ds| - 1], files)
      case None => front
      case Some(r) => front + [r]
  }

  /** The positions, in increasing order, of the districts whose load succeeds. */
  function LoadedIndices(ds: seq<DistrictConfig>, files: map<string, Frame>): seq<nat>
  {
    if ds == [] then []
    else
      LoadedIndices(ds[..|ds| - 1], files)
        + if Forecast(ds[|ds| - 1], files).Some? then [|ds| - 1] else []
  }

  /** The loaded positions are valid positions of the table, in strictly increasing order. */
  lemma {:induction false} LoadedIndicesIncreasing(ds: seq<DistrictConfig>, files: map<string, Frame>)
    ensures forall k :: 0 <= k < |LoadedIndices(ds, files)| ==> LoadedIndices(ds, files)[k] < |ds|
    ensures forall j, k :: 0 <= j < k < |LoadedIndices(ds, files)| ==>
      LoadedIndices(ds, files)[j] < LoadedIndices(ds, files)[k]
  {
    if ds != [] {
      LoadedIndicesIncreasing(ds[..|ds| - 1], files);
    }
  }

  /** A position is loaded exactly when that district's forecast loads. */
  lemma {:induction false} LoadedIndicesMembership(ds: seq<DistrictConfig>, files: map<string, Frame>)
    ensures forall i :: 0 <= i < |ds| ==>
      (Forecast(ds[i], files).Some? <==> i in LoadedIndices(ds, files))
  {
    if ds != [] {
      var n := |ds| - 1;
      var front := ds[..n];
      LoadedIndicesMembership(front, files);
      LoadedIndicesIncreasing(front, files);
      assert forall i :: 0 <= i < n ==> front[i] == ds[i];
    }
  }

  /** The k-th record is the record of the district at the k-th loaded position. */
  lemma {:induction false} AssembleAtLoadedIndices(ds: seq<DistrictConfig>, files: map<string, Frame>)
    ensures |LoadedIndices(ds, files)| == |Assemble(ds, files)|
    ensures forall k :: 0 <= k < |LoadedIndices(ds, files)| ==>
      LoadedIndices(ds, files)[k] < |ds|
      && LoadRecord(ds[LoadedIndices(ds, files)[k]], files) == Some(Assemble(ds, files)[k])
  {
    if ds != [] {
      var n := |ds| - 1;
      var front := ds[..n];
      AssembleAtLoadedIndices(front, files);
      var idx, out := LoadedIndices(front, files), Assemble(front, files);
      assert forall k :: 0 <= k < |idx| ==> front[idx[k]] == ds[idx[k]];
      match LoadRecord(ds[n], files)
      case None =>
        assert LoadedIndices(ds, files) == idx && Assemble(ds, files) == out;
      case Some(r) =>
        assert LoadedIndices(ds, files) == idx + [n] && Assemble(ds, files) == out + [r];
    }
  }

  /**
   * The dashboard is the in-order subsequence of the districts that load:
   * the k-th record describes the district at the k-th loaded position,
   * carries its forecast, and a district appears iff its load succeeds.
   */
  lemma AssembleIsOrderedFilter(ds: seq<DistrictConfig>, files: map<string, Frame>)
    ensures |LoadedIndices(ds, files)| == |Assemble(ds, files)|
    ensures forall k :: 0 <= k < |LoadedIndices(ds, files)| ==>
      LoadedIndices(ds, files)[k] < |ds|
      && Describes(Assemble(ds, files)[k], ds[LoadedIndices(ds, files)[k]])
      && Forecast(ds[LoadedIndices(ds, files)[k]], files) == Some(Assemble(ds, files)[k].cases)
    ensures forall j, k :: 0 <= j < k < |LoadedIndices(ds, files)| ==>
      LoadedIndices(ds, files)[j] < LoadedIndices(ds, files)[k]
    ensures forall i :: 0 <= i < |ds| ==>
      (Forecast(ds[i], files).Some? <==> i in LoadedIndices(ds, files))
  {
    LoadedIndicesIncreasing(ds, files);
    LoadedIndicesMembership(ds, files);
    AssembleAtLoadedIndices(ds, files);
  }

  /** When every load fails the dashboard is empty, and when all succeed it has one record per district. */
  lemma {:induction false} AssembleExtremes(ds: seq<DistrictConfig>, files: map<string, Frame>)
    ensures (forall i :: 0 <= i < |ds| ==> Forecast(ds[i], files).None?) ==> Assemble(ds, files) == []
    ensures (forall i :: 0 <= i < |ds| ==> Forecast(ds[i], files).Some?) ==> |Assemble(ds, files)| == |ds|
  {
    if ds != [] {
      var front := ds[..|ds| - 1];
      assert forall i :: 0 <= i < |front| ==> front[i] == ds[i];
      AssembleExtremes(front, files);
    }
  }

  /**
   * Builds the dashboard records: for each district in turn, read its file,
   * pick the predicted column, take its last value, classify it and append
   * the record; a district whose load fails is skipped and the loop goes on.
   */
  method LoadAllData(districts: seq<DistrictConfig>, files: map<string, Frame>)
    returns (data: seq<Record>)
    ensures data == Assemble(districts, files)
  {
    data := [];
    for i := 0 to |districts|
      invariant data == Assemble(districts[..i], files)
    {
      var info := districts[i];
      assert districts[..i + 1][..i] == districts[..i];
      if info.file in files {
        var df := files[info.file];
        var predCol := PredictedColumn(df.Keys);
        if predCol in df && |df[predCol]| > 0 {
          var val := df[predCol][|df[predCol]| - 1];
          var a := Classify(val, info.threshold);
          data := data + [Record(info.name, info.lat, info.lon, val, a.tier, a.color, info.model, info.acc)];
        }
      }
    }
    assert districts[..|districts|] == districts;
  }
}
