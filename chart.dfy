/**
 * The column renaming of the trend chart (app.py, section "DEEP DIVE"):
 * the recognised source columns are mapped to the canonical names
 * `Actual` and `Predicted`.
 */
module Chart {
  import opened Wrappers

  const Actual := "Actual"
  const Predicted := "Predicted"

  /** The canonical name of a recognised column, None for any other column. */
  function CanonicalName(column: string): Option<string>
  {
    if column == "dengue_cases" || column == "actual" then Some(Actual)
    else if column == "predicted_cases" || column == "predicted" then Some(Predicted)
    else None
  }

  /**
   * Builds the rename map by one test per recognised column: exactly the
   * recognised columns present in the frame get an entry, each mapped to
   * its canonical name.
   */
  method ColumnRenames(columns: set<string>) returns (colsMap: map<string, string>)
    ensures forall c :: c in colsMap <==> c in columns && CanonicalName(c).Some?
    ensures forall c :: c in colsMap ==> colsMap[c] == CanonicalName(c).value
    ensures colsMap.Values <= {Actual, Predicted}
  {
    colsMap := map[];
    if "dengue_cases" in columns { colsMap := colsMap["dengue_cases" := Actual]; }
    if "actual" in columns { colsMap := colsMap["actual" := Actual]; }
    if "predicted_cases" in columns { colsMap := colsMap["predicted_cases" := Predicted]; }
    if "predicted" in columns { colsMap := colsMap["predicted" := Predicted]; }
  }
}
