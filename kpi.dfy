/**
 * The two headline figures of the dashboard (app.py, section "KPIs"):
 * the total forecast case count and the number of CRITICAL districts.
 */
module Kpi {
  import opened Wrappers
  import opened Risk
  import opened Dashboard

  /**
   * Sum of the case counts of the records. It is 0 for no records, and when
   * no count is negative, it bounds every single record's count.
   */
  function TotalCases(records: seq<Record>): (t: int)
    ensures records == [] ==> t == 0
    ensures (forall k :: 0 <= k < |records| ==> records[k].cases >= 0) ==>
      t >= 0 && forall k :: 0 <= k < |records| ==> records[k].cases <= t
  {
    if records == [] then 0
    else TotalCases(records[..|records| - 1]) + records[|records| - 1].cases
  }

  /** Number of records whose status is CRITICAL. */
  function HighRiskCount(records: seq<Record>): (n: nat)
    ensures n <= |records|
  {
    if records == [] then 0
    else
      HighRiskCount(records[..|records| - 1])
        + if records[|records| - 1].status == Critical then 1 else 0
  }

  /** The pair (total forecast cases, high-risk count); both are 0 when nothing loaded. */
  function Kpis(records: seq<Record>): (k: (int, nat))
    ensures records == [] ==> k == (0, 0)
    ensures k.1 <= |records|
    ensures records != [] ==> k == (TotalCases(records), HighRiskCount(records))
  {
    if records != [] then (TotalCases(records), HighRiskCount(records)) else (0, 0)
  }

  /** The total is additive over concatenation, so it does not depend on how the records are grouped. */
  lemma {:induction false} TotalCasesAppend(a: seq<Record>, b: seq<Record>)
    ensures TotalCases(a + b) == TotalCases(a) + TotalCases(b)
  {
    if b != [] {
      var b' := b[..|b| - 1];
      assert (a + b)[..|a + b| - 1] == a + b';
      TotalCasesAppend(a, b');
    } else {
      assert a + b == a;
    }
  }

  /** The count of CRITICAL records is the size of the set of their positions. */
  lemma {:induction false} HighRiskCountIsCardinality(records: seq<Record>)
    ensures HighRiskCount(records) == |set k | 0 <= k < |records| && records[k].status == Critical|
  {
    if records != [] {
      var n := |records| - 1;
      var front := records[..n];
      HighRiskCountIsCardinality(front);
      var s := set k | 0 <= k < |records| && records[k].status == Critical;
      var s' := set k | 0 <= k < |front| && front[k].status == Critical;
      var added := records[n].status == Critical;
      forall k ensures k in s <==> k in s' || (added && k == n) {
        if 0 <= k < n { assert front[k] == records[k]; }
      }
      SetGrowsByOne(s, s', n, added);
    }
  }

  /** Sum over the districts of their forecasts, a district that fails to load contributing 0. */
  function ForecastTotal(ds: seq<DistrictConfig>, files: map<string, Frame>): int
  {
    if ds == [] then 0
    else ForecastTotal(ds[..|ds| - 1], files) + Forecast(ds[|ds| - 1], files).GetOr(0)
  }

  /** The dashboard's total is the sum of the forecasts of the districts that load. */
  lemma {:induction false} TotalCasesOfDashboard(ds: seq<DistrictConfig>, files: map<string, Frame>)
    ensures TotalCases(Assemble(ds, files)) == ForecastTotal(ds, files)
  {
    if ds != [] {
      var front := ds[..|ds| - 1];
      TotalCasesOfDashboard(front, files);
      var out := Assemble(front, files);
      match LoadRecord(ds[|ds| - 1], files)
      case None =>
      case Some(r) =>
        assert (out + [r])[..|out|] == out;
    }
  }

  /** District `d` loads and its forecast is strictly above its threshold. */
  predicate OverThreshold(d: DistrictConfig, files: map<string, Frame>)
  {
    Forecast(d, files).Some? && Forecast(d, files).value > d.threshold
  }

  /** Adding one district to the table adds one to the high-risk count iff it is over its threshold. */
  lemma HighRiskCountStep(ds: seq<DistrictConfig>, files: map<string, Frame>)
    requires ds != []
    ensures HighRiskCount(Assemble(ds, files))
      == HighRiskCount(Assemble(ds[..|ds| - 1], files)) + if OverThreshold(ds[|ds| - 1], files) then 1 else 0
  {
    var out := Assemble(ds[..|ds| - 1], files);
    match LoadRecord(ds[|ds| - 1], files)
    case None =>
    case Some(r) =>
      assert (out + [r])[..|out|] == out;
  }

  /** A set that is `s'` plus possibly one new element `x` has one more element exactly when `x` is added. */
  lemma SetGrowsByOne(s: set<int>, s': set<int>, x: int, added: bool)
    requires forall i :: i in s <==> i in s' || (added && i == x)
    requires x !in s'
    ensures |s| == |s'| + if added then 1 else 0
  {
    if added {
      forall i ensures i in s <==> i in s' + {x} {
      }
      assert s == s' + {x};
    } else {
      forall i ensures i in s <==> i in s' {
      }
      assert s == s';
    }
  }

  /** The districts among the first `m` that are over their threshold, by position. */
  function OverThresholdPositions(ds: seq<DistrictConfig>, files: map<string, Frame>, m: nat): set<int>
    requires m <= |ds|
  {
    set i | 0 <= i < m && OverThreshold(ds[i], files)
  }

  /** Extending the prefix by one district adds its position iff it is over its threshold. */
  lemma OverThresholdPositionsStep(ds: seq<DistrictConfig>, files: map<string, Frame>, m: nat)
    requires 0 < m <= |ds|
    ensures |OverThresholdPositions(ds, files, m)|
      == |OverThresholdPositions(ds, files, m - 1)| + if OverThreshold(ds[m - 1], files) then 1 else 0
  {
    var s := OverThresholdPositions(ds, files, m);
    var s' := OverThresholdPositions(ds, files, m - 1);
    var added := OverThreshold(ds[m - 1], files);
    forall i ensures i in s <==> i in s' || (added && i == m - 1) {
    }
    SetGrowsByOne(s, s', m - 1, added);
  }

  /** The high-risk count of the first `m` districts, by positions. */
  lemma {:induction false} HighRiskCountOfPrefix(ds: seq<DistrictConfig>, files: map<string, Frame>, m: nat)
    requires m <= |ds|
    ensures HighRiskCount(Assemble(ds[..m], files)) == |OverThresholdPositions(ds, files, m)|
  {
    if m == 0 {
      assert OverThresholdPositions(ds, files, m) == {};
    } else {
      HighRiskCountOfPrefix(ds, files, m - 1);
      assert ds[..m][..m - 1] == ds[..m - 1];
      HighRiskCountStep(ds[..m], files);
      OverThresholdPositionsStep(ds, files, m);
    }
  }

  /**
   * The dashboard's high-risk count is the number of districts that load
   * and whose forecast is strictly above their threshold.
   */
  lemma HighRiskCountOfDashboard(ds: seq<DistrictConfig>, files: map<string, Frame>)
    ensures HighRiskCount(Assemble(ds, files))
      == |set i | 0 <= i < |ds| && OverThreshold(ds[i], files)|
  {
    HighRiskCountOfPrefix(ds, files, |ds|);
    assert ds[..|ds|] == ds;
    assert OverThresholdPositions(ds, files, |ds|) == set i | 0 <= i < |ds| && OverThreshold(ds[i], files);
  }

  /** When no district loads, both figures are 0. */
  lemma NoDataKpis(ds: seq<DistrictConfig>, files: map<string, Frame>)
    requires forall i :: 0 <= i < |ds| ==> Forecast(ds[i], files).None?
    ensures Kpis(Assemble(ds, files)) == (0, 0)
  {
    AssembleExtremes(ds, files);
  }
}
