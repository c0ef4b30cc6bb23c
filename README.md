# Dengue surveillance dashboard: risk tiers and dashboard assembly

This project models the logic of the AUTODENGUE.LK district dashboard
(`app.py`). The rest of that file is page layout and rendering.

The dashboard keeps a fixed table of three districts: Colombo, Katugastota
and Ratnapura. Each entry has coordinates, a forecast CSV file, an alert
threshold (2000, 300 and 400) and two display labels. For every district it
reads the file and takes the predicted case count in its last row (file
order; the rows are not sorted by date). It classifies
that count as CRITICAL, WARNING or NORMAL, and gives each tier a marker
colour and a badge class. It collects one record per district that loaded
and skips the rest without stopping. It then shows two headline figures: the
total forecast case count and the number of CRITICAL districts. The trend
chart renames the recognised source columns to `Actual` and `Predicted`.

Modules:

- `Wrappers` (`wrappers.dfy`): `Option`.
- `Risk` (`risk.dfy`): the tiers, the classifier, the colours, the status labels and the badge classes.
- `Dashboard` (`dashboard.dfy`): the district table, the choice of the predicted column, one district's record, and the `load_all_data` loop as the method `LoadAllData`. That method is proved equal to the function `Assemble`.
- `Kpi` (`kpi.dfy`): the total case count and the high-risk count, plus the lemmas that link them to the district table.
- `Chart` (`chart.dfy`): the method that builds the column rename map.

How the model stands in for the outside world:

- The file system is the parameter `files: map<string, Frame>`, from file name to parsed frame. A name that is missing stands for a file that `read_csv` could not read.
- A `Frame` maps each column name to that column's values from first row to last. The values are already rounded to integers.
- The bare `except: pass` in the loop catches every exception and skips the district. The model represents three of those failures: the file cannot be read, the chosen predicted column does not exist (a `KeyError`), or the frame has no rows (an `IndexError`). A file that `read_csv` fails to parse counts as a missing file. A NaN or non-numeric last cell, which makes `int(round(...))` raise, is not modelled (see "## Left out").
- `predicted_cases` wins whenever that column exists. The model's `Frame` lets columns have different lengths, which a pandas frame cannot. On such a frame, an empty `predicted_cases` column makes the district fail even when `predicted` has values.
- The loop reads the global table in the source. Here the table is an argument. `Dashboard.Districts` holds the configured entries in the order the table lists them.
- A record stores its status as a `Tier`. `Risk.Label` gives the string the source stores. The high-risk count compares that string with `"CRITICAL"`, and since labels are injective this is the same as comparing the tier.
- The product `threshold * 0.7` is compared exactly, as `10 * val > 7 * threshold`. In IEEE-754 double arithmetic, `2000 * 0.7`, `300 * 0.7` and `400 * 0.7` come out exactly as 1400.0, 210.0 and 280.0. So for an integer `val` and the configured thresholds, the integer comparison matches the floating-point one.
- The classifier is stated for every integer threshold. When the threshold is negative, the WARNING band is empty. The tier is monotone in the forecast for every threshold.
- A stricter design would report a named "forecast unavailable" error when a load fails. The code skips the district silently, and the model follows the code.
- If a frame has both `dengue_cases` and `actual`, the rename map sends both to `Actual`. The model records this as the code does.

## Model

| member | source | states |
|---|---|---|
| `Risk.Classify` | app.py:156-164 | CRITICAL exactly when the value is strictly above the threshold. WARNING exactly when it is above 0.7× the threshold and at most the threshold. NORMAL exactly when it is at most both. The colour is the tier's colour. |
| `Risk.ColorOf` | app.py:158-164 | Every tier colour has alpha 255. CRITICAL is exactly the colour whose red exceeds green and blue while green equals blue. NORMAL is exactly the colour whose green exceeds red and blue. |
| `Risk.ColorOfInjective` | app.py:156-164 | Two tiers get the same colour only if they are the same tier. |
| `Risk.ClassifyPositiveThreshold` | app.py:156-164 | With a positive threshold, NORMAL is exactly `val <= 0.7·threshold`, and WARNING is exactly `0.7·threshold < val <= threshold`. |
| `Risk.ClassifyMonotone` | app.py:156-164 | A larger forecast never gets a less severe tier (NORMAL < WARNING < CRITICAL). |
| `Risk.ClassifyBoundaries` | app.py:156-164 | Equality at either breakpoint falls to the lower tier: 2000 of 2000 is WARNING, 1400 of 2000 is NORMAL, 2001 of 2000 is CRITICAL. The same holds at the 300 and 400 thresholds. |
| `Risk.Label` | app.py:157-163 | The status string is `CRITICAL`, `WARNING` or `NORMAL` exactly for the matching tier. |
| `Risk.Lower` | app.py:240 | The lower-cased string has the same length, and each character is the ASCII lower-case form of the input's character at that position. |
| `Risk.BadgeClass` | app.py:240 | The class always starts with `badge-`. `NORMAL` gives `badge-safe`, and any other status gives `badge-` followed by that status, lower-cased. |
| `Risk.BadgeOfTier` | app.py:240 | The CRITICAL, WARNING and NORMAL labels get `badge-critical`, `badge-warning` and `badge-safe`. |
| `Risk.LabelAndBadgeInjective` | app.py:157-163 | Distinct tiers have distinct status labels and distinct badge classes. |
| `Dashboard.DistrictsWellFormed` | app.py:129-145 | The table has three districts with distinct names, and every threshold is positive. |
| `Dashboard.PredictedColumn` | app.py:153 | The column is `predicted_cases` exactly when that column is present, and `predicted` otherwise. |
| `Dashboard.Forecast` | app.py:152-154 | No forecast when the district's file cannot be read. Otherwise the last predicted value of that file's frame. |
| `Dashboard.LastPredicted` | app.py:153-154 | The last value of `predicted_cases` when that column is present. Otherwise the last value of `predicted`. None when the chosen column is missing or empty. |
| `Dashboard.LoadRecord` | app.py:150-170 | A record exists exactly when the district's forecast loads. Its case count is that forecast. Name, coordinates, model and accuracy are copied, and status and colour are the classification against the district's threshold. |
| `Dashboard.Assemble` | app.py:148-173 | The dashboard never has more records than there are districts. |
| `Dashboard.AssembleIsOrderedFilter` | app.py:148-173 | The records are the in-order subsequence of the districts that load. The k-th record describes the district at the k-th loaded position and carries its forecast. The positions strictly increase. A district appears exactly when its load succeeds. |
| `Dashboard.AssembleExtremes` | app.py:148-173 | If every load fails, the dashboard is empty. If every load succeeds, it has one record per district. |
| `Dashboard.LoadAllData` | app.py:148-173 | The loop, which appends on success and skips on failure, returns exactly `Assemble` of the table. |
| `Kpi.TotalCases` | app.py:192 | The total is 0 for no records. When no count is negative, the total is non-negative and at least as large as every single record's count. |
| `Kpi.HighRiskCount` | app.py:193 | The high-risk count never exceeds the number of records. |
| `Kpi.HighRiskCountIsCardinality` | app.py:193 | The high-risk count is the number of record positions whose status is CRITICAL. |
| `Kpi.Kpis` | app.py:191-195 | Both figures are 0 for an empty dashboard. Otherwise they are the total case count and the high-risk count, and the count is at most the number of records. |
| `Kpi.TotalCasesAppend` | app.py:192 | The total is additive over concatenating record lists. |
| `Kpi.TotalCasesOfDashboard` | app.py:192 | The dashboard total is the sum of the forecasts of the districts that load. Failed districts contribute nothing. |
| `Kpi.HighRiskCountOfDashboard` | app.py:193 | The high-risk count is the number of districts that load with a forecast strictly above their own threshold. |
| `Kpi.NoDataKpis` | app.py:191-195 | When no district loads, both headline figures are 0. |
| `Chart.ColumnRenames` | app.py:266-270 | A column gets an entry exactly when it is present and recognised. `dengue_cases` and `actual` map to `Actual`, `predicted_cases` and `predicted` map to `Predicted`, and no other target name appears. |

## Left out

- Page configuration, CSS and HTML templating (app.py:7-126, 178-188, 242-253): presentation only.
- The pydeck map layer and view state (app.py:212-234): a foreign rendering library.
- pandas I/O and transforms: `read_csv`, `to_datetime`, `rename`, `set_index`, `fillna`, `astype` (app.py:152, 264-273). Reading a file is the `files` parameter. A frame is a map from column names to integer sequences.
- `int(round(...))` on the predicted value (app.py:154): Python rounds floats half-to-even. The model takes the value as already rounded, and does not model a non-numeric or missing last cell either.
- `Risk.Classify`: compares `10 * val > 7 * threshold` exactly instead of against the float product `threshold * 0.7`. The two agree at the configured thresholds (see above), but for other thresholds a floating-point rounding of the product is not modelled.
- `Risk.Lower`: maps only the ASCII letters A-Z to a-z, not the full Unicode case mapping of Python's `str.lower`.
- `Risk.BadgeClass`: lower-cases ASCII letters only, not the full Unicode case mapping of Python's `str.lower`. The tier labels are ASCII.
- Floating-point coordinates are `real` values that are copied unchanged, so no arithmetic on them is modelled.
- Hard-coded metric strings such as "ONLINE" and "89.2%" (app.py:200-201): they carry no logic.
- The trend chart, weather simulator, guidelines and poster tabs (app.py:278-282): the file ends at line 282, inside the trend tab, so their bodies are not part of this model.
- The `@st.cache_data` decorator (app.py:147): framework caching, with no effect on the result.
- The district picker (app.py:259-260): a UI widget, and its lookup into the table is a plain dictionary access.
