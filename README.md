# fdmMiniAQI AQI engine in Dafny

A verified model of the AQI engine of the fdmMiniAQI dashboard and API. It covers:

- the breakpoint interpolator `to_aqi`. It turns a pollutant concentration into a 0–500 sub-index, using the piecewise-linear AQI equation of the US EPA Technical Assistance Document for the Reporting of Daily Air Quality and the per-pollutant breakpoint tables `BPS`;
- the classifier `category`, which maps a sub-index to one of six health labels;
- the static lookups `CATEGORIES`, `COLORS` and `health_tip`;
- the dashboard's range tables `AQI_RANGE` and `NEXT_WORSE_PM25_START`, and the figures of its threshold panel;
- nearest-city selection, in two places: the `/nearest-city` endpoint, and the dashboard's nearest-city card. Both drop rows without coordinates, then take the first row at minimum distance.

Modules:

- `Wrappers`: `Option` and `Result`.
- `AqiMath` (app/aqi_math.py): tables, well-formedness, half-to-even rounding, `Linear`, `FirstBand`, `ToAqi`, `Category`.
- `Utils` (app/utils.py): labels, colours, advisories, and a label's severity rank.
- `Locator`: what the two nearest-city call sites share. This is the `Station` row, the `dropna` filter, the distance vector, the `ArgMin` scan method and `SeqMin`.
- `ModelApi` (app/model_api.py): dataset loading and the `nearest_city` endpoint.
- `App` (app/app.py): range tables, the threshold panel and the nearest-city card.
- `Consistency`: lemmas that relate the classifier to the utils lookups and to `AQI_RANGE`.

Modelling choices:

- Concentrations and the interpolated value are exact `real`s. The table literals are therefore exact, and a value in a gap between bands (PM2.5 12.05) is truly out of range.
- Python's `round` is modelled as round-half-to-even (`RoundHalfEven`), defined through `Floor`.
- A reading is `Missing` (`None`), `NaN`, or `Conc(c)`. For `Missing` and `NaN`, `ToAqi` returns `Ok(None)` before it looks up any table, even for an unknown pollutant. For a number and an unknown pollutant it returns `Err(KeyError(..))`, as `BPS[pollutant]` raises.
- The great-circle distance is a parameter `DistanceFn`, called with the query point first, as both call sites do.
- The model_api module assigns `_df` once at import. Here that becomes `LoadDataset`, which gives the dataset the endpoint method receives.
- Selection uses positions. `idxmin` returns the label of the first minimum and `.loc` reads that row. After `dropna` that is the same row as the first minimum's position.
- In the dashboard, `row["City"]` and the other fields raise `KeyError` when a column is absent. The surrounding `except` swallows it, so the model shows no card.
- The threshold panel compares the starts in `NEXT_WORSE_PM25_START` (51, 101, ...) with the dashboard's "PM2.5 AQI Value" input, which is a sub-index on the same 0–500 scale. The input is the real parameter `pm25` of `ThresholdPanel`.
- `category` takes the same `Missing | NaN | Conc(v)` input. It puts negative numbers in "Good", as the code's first comparison does. A NaN passes the `None` test and fails all five comparisons, so it is labelled "Hazardous", not "Unknown".
- `dropna` keeps the rows in file order. `DropMissingCoordsConcat` and the one-row case of `DropMissingCoords` state this, so ties between equally near rows go to the earliest row of the file.

## Model

| member | source | states |
|---|---|---|
| `AqiMath.TablesWellFormed` | app/aqi_math.py:11-43 | every table starts at concentration 0 and index 0; in every band `Clow < Chigh` and `0 <= Ilow < Ihigh <= 500`; consecutive bands ascend strictly with a gap; each band's `Ilow` is the previous `Ihigh + 1`; ozone tops out at 300, the others at 500 |
| `AqiMath.Ascending` | app/aqi_math.py:11-43 | in a well-formed table, every earlier band ends below every later band's start, in concentration and in index |
| `AqiMath.RoundHalfEven` | app/aqi_math.py:55 | the result is an integer within 1/2 of the input, and an exact half rounds to the even neighbour |
| `AqiMath.RoundHalfEvenUnique` | app/aqi_math.py:55 | those two conditions determine the rounded value |
| `AqiMath.RoundMonotone` | app/aqi_math.py:55 | rounding is monotone |
| `AqiMath.RoundBetween` | app/aqi_math.py:55 | a value between two integers rounds to something between them |
| `AqiMath.Linear` | app/aqi_math.py:45-47 | the band formula maps `Clow` to `Ilow` and `Chigh` to `Ihigh` |
| `AqiMath.LinearMonotone` | app/aqi_math.py:45-47 | the band formula is monotone in the concentration |
| `AqiMath.LinearInBand` | app/aqi_math.py:45-47 | inside a band the interpolated value lies in `[Ilow, Ihigh]` |
| `AqiMath.FirstBand` | app/aqi_math.py:53-54 | returns the first band in table order with `Clow <= c <= Chigh` (both ends inclusive), or none when no band holds `c` |
| `AqiMath.FirstBandIsOnlyBand` | app/aqi_math.py:53-55 | in a well-formed table, any band that holds `c` is the first such band |
| `AqiMath.ToAqi` | app/aqi_math.py:49-56 | None/NaN yields `None` for any pollutant, unknown or not; a number with an unknown pollutant is a `KeyError`; for a known pollutant the result is defined exactly when some band holds the value |
| `AqiMath.ToAqiInBand` | app/aqi_math.py:53-55 | a value in band `k` gets `round(_linear(c, band k))`, and that lies in `[Ilow, Ihigh]` of band `k` |
| `AqiMath.ToAqiAtBandEnds` | app/aqi_math.py:45-55 | band endpoints are exact: `Clow` gives `Ilow` and `Chigh` gives `Ihigh` for every band of every table |
| `AqiMath.ToAqiBounded` | app/aqi_math.py:49-56 | every defined sub-index lies in `[0, 500]` |
| `AqiMath.ToAqiMonotone` | app/aqi_math.py:53-55 | for two in-range values `c1 <= c2` of one pollutant, the sub-indices are ordered the same way, whether they fall in the same band or not |
| `AqiMath.ToAqiOutOfRange` | app/aqi_math.py:53-56 | a negative value, a value above the top band, or a value in a gap between bands yields `None` |
| `AqiMath.DocumentedExamples` | app/aqi_math.py:13-14 | PM2.5 12.0 gives 50 and 12.1 gives 51; PM2.5 12.05, PM2.5 600.0 and ozone 201 give `None` |
| `AqiMath.Category` | app/aqi_math.py:58-65 | the result is "Unknown" exactly when the input is `None`; a NaN is "Hazardous" |
| `AqiMath.CategoryCutoffs` | app/aqi_math.py:60-65 | the cut-offs 50/100/150/200/300 are inclusive upper bounds, 50.5 is already Moderate, and anything above 300 is Hazardous |
| `Utils.HealthTip` | app/utils.py:21-30 | total; each of the six labels gets its own advisory, which differs from the default; every other string, "Unknown" included, gets "Check local guidance." |
| `Utils.LookupTablesAgree` | app/utils.py:3-29 | `CATEGORIES` holds six distinct labels; `COLORS` and the advisories have exactly those labels as keys |
| `Utils.Severity` | app/utils.py:3-10 | gives a label's position in the severity order, and is undefined exactly for strings outside `CATEGORIES` |
| `Locator.DropMissingCoords` | app/model_api.py:42 | keeps exactly the rows that have both coordinates; keeps all rows when every row has them; a single row is kept exactly when it has both coordinates |
| `Locator.DropMissingCoordsConcat` | app/model_api.py:42 | the filter works row by row and keeps file order: filtering `a + b` gives the filtered `a` followed by the filtered `b`; with the one-row case of `DropMissingCoords` this fixes the result row for row |
| `Locator.Distances` | app/model_api.py:60 | one distance per candidate row, in row order: the i-th is the distance from the query point to row i's coordinates |
| `Locator.ArgMin` | app/model_api.py:61 | no index for an empty vector; otherwise the index of a minimal distance with no smaller-or-equal distance before it (first occurrence, as `np.argmin`) |
| `Locator.FirstMinimumUnique` | app/model_api.py:61 | the first-minimum condition singles out one index |
| `Locator.SeqMin` | app/app.py:265 | `dists.min()` is one of the distances and no distance is smaller |
| `Locator.FirstMinimumIsMin` | app/app.py:258-265 | the distance at the chosen index equals `dists.min()` |
| `ModelApi.LoadDataset` | app/model_api.py:41-45 | a failed load leaves the dataset empty; otherwise the dataset holds exactly the parsed rows that have both coordinates, filtered by `DropMissingCoords` and so in file order |
| `ModelApi.RecordOf` | app/model_api.py:63-69 | absent City/Country/AQI Category read as "", an absent AQI Value as 0, present fields are copied, and `distance_km` is the given distance |
| `ModelApi.NearestCity` | app/model_api.py:56-69 | an empty dataset gives HTTP 500 "Dataset not available", and nothing else is an error; otherwise the record of the first row at minimum distance, whose `distance_km` is that row's distance and the minimum |
| `App.AqiRangeTiles` | app/app.py:76-83 | the bands are keyed by exactly the six labels; in severity order they start at 0, end at 500, and each `hi + 1` is the next `lo` |
| `App.AqiRangePartition` | app/app.py:76-83 | an integer lies in some band exactly when it is in 0..500, and never in two |
| `App.NextWorseIsSuccessor` | app/app.py:86-92 | the table has every label but Hazardous; each maps to its successor in severity order and to that successor's `AQI_RANGE` low bound |
| `App.TypicalRange` | app/app.py:202 | a listed label shows its band's `(lo, hi)`; any other prediction shows `(None, None)` |
| `App.ThresholdPanel` | app/app.py:227-234 | no panel for Hazardous or for an unlisted prediction; otherwise `remaining >= 0`, `remaining` is 0 exactly when `pm25 >= nxt_start` and otherwise `nxt_start - pm25`; `denom >= 1`; `pct` lies in `[0, 100]` and is 0 exactly when `pm25 <= lo_current` |
| `App.PanelFullIffNoneRemaining` | app/app.py:229-234 | `denom` is the width `nxt_start - lo_current`, and the bar is full (`pct == 100`) exactly when nothing remains |
| `App.NearestCityCard` | app/app.py:254-268 | a card exists exactly when some row has coordinates and the first row at minimum distance has every displayed column; the card shows that row's fields and its distance, which is the minimum |
| `Consistency.SeverityOfCategory` | app/aqi_math.py:60-65 | every number gets a listed label, and its severity rank follows the five cut-offs |
| `Consistency.CategoryIsListed` | app/aqi_math.py:58-65 | every label of a number is in `CATEGORIES`, has a colour, and has an advisory other than the default |
| `Consistency.UnknownIsUnlisted` | app/aqi_math.py:59 | "Unknown" has no colour, the default advisory, range `(None, None)` and no threshold panel |
| `Consistency.CategoryMonotone` | app/aqi_math.py:58-65 | a larger sub-index never gets an earlier label in the severity order |
| `Consistency.CategoryAgreesWithRange` | app/app.py:76-83 | for integers 0..500, `category(v)` is `name` exactly when `v` lies in `AQI_RANGE[name]` |
| `Consistency.SubIndexInItsBand` | app/aqi_math.py:49-65 | every sub-index `to_aqi` produces is classified as one of the six labels, and lies in that label's `AQI_RANGE` band |

## Left out

- Haversine formulas (app/app.py:94-101, app/model_api.py:47-54): floating-point trigonometry. The distance is the parameter `DistanceFn`, so its symmetry and its zero self-distance are not modelled.
- Floating point: all arithmetic is exact. A float rounding error that pushes `_linear` across a .5 boundary, or NaN inside `argmin`/`idxmin`/`min`, is not modelled.
- The ML classifier (`joblib`, `model.predict`) and the `/predict` endpoint: the model is opaque. Its prediction is the `pred` parameter of the dashboard functions.
- app/live_sources.py: network I/O. live_sources.py is not part of this model.
- Streamlit and folium rendering, CSS/HTML, `display_nearest_city`, sidebar widgets, map markers.
- FastAPI routing, CORS and `/health`.
- CSV parsing and caching. The parsed file is an input, and a failed read is `None`. The message printed on a failed load (app/model_api.py:45) is output and is not modelled.
- `str()`/`int()` conversions of the record fields: fields are already of their target types. An `int()` of a NaN AQI Value, which raises, is not modelled.
- `_linear` on a band with `Clow == Chigh`, which raises `ZeroDivisionError`: no table has one, so `Linear` requires `Clow != Chigh`.
