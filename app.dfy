/**
  The computations the dashboard script app/app.py performs around a
  category prediction: the typical AQI range of each category, the start of the
  next-worse category, the threshold panel's figures, and the nearest-city card.
  The prediction itself comes from an external classifier and is a parameter.
 */
module App {
  import opened Wrappers
  import opened Utils
  import opened Locator

  /** The AQI band `(lo, hi)` of each category. */
  const AQI_RANGE: map<string, (int, int)> := map[
    "Good" := (0, 50),
    "Moderate" := (51, 100),
    "Unhealthy for Sensitive Groups" := (101, 150),
    "Unhealthy" := (151, 200),
    "Very Unhealthy" := (201, 300),
    "Hazardous" := (301, 500)
  ]

  /** For every category but the worst, the next-worse one and where it starts. */
  const NEXT_WORSE_PM25_START: map<string, (string, int)> := map[
    "Good" := ("Moderate", 51),
    "Moderate" := ("Unhealthy for Sensitive Groups", 101),
    "Unhealthy for Sensitive Groups" := ("Unhealthy", 151),
    "Unhealthy" := ("Very Unhealthy", 201),
    "Very Unhealthy" := ("Hazardous", 301)
  ]

  predicate InAqiRange(v: int, name: string) {
    name in AQI_RANGE && AQI_RANGE[name].0 <= v <= AQI_RANGE[name].1
  }

  /** The bands follow the severity order, start at 0, end at 500 and leave no gap. */
  lemma AqiRangeTiles()
    ensures AQI_RANGE.Keys == set c | c in CATEGORIES
    ensures AQI_RANGE[CATEGORIES[0]].0 == 0 && AQI_RANGE[CATEGORIES[|CATEGORIES| - 1]].1 == 500
    ensures forall i :: 0 <= i < |CATEGORIES| ==> AQI_RANGE[CATEGORIES[i]].0 <= AQI_RANGE[CATEGORIES[i]].1
    ensures forall i :: 0 <= i < |CATEGORIES| - 1 ==>
      AQI_RANGE[CATEGORIES[i]].1 + 1 == AQI_RANGE[CATEGORIES[i + 1]].0
  {
  }

  /** Every integer of 0..500, and nothing outside it, lies in exactly one band. */
  lemma AqiRangePartition(v: int)
    ensures (exists name :: InAqiRange(v, name)) <==> 0 <= v <= 500
    ensures forall n1, n2 :: InAqiRange(v, n1) && InAqiRange(v, n2) ==> n1 == n2
  {
    if 0 <= v <= 500 {
      var name :=
        if v <= 50 then "Good"
        else if v <= 100 then "Moderate"
        else if v <= 150 then "Unhealthy for Sensitive Groups"
        else if v <= 200 then "Unhealthy"
        else if v <= 300 then "Very Unhealthy"
        else "Hazardous";
      assert InAqiRange(v, name);
    }
  }

  /** Each category but Hazardous is followed by its successor, starting where that one's band starts. */
  lemma NextWorseIsSuccessor()
    ensures forall name :: name in NEXT_WORSE_PM25_START <==> name in CATEGORIES && name != "Hazardous"
    ensures forall i :: 0 <= i < |CATEGORIES| - 1 ==>
      NEXT_WORSE_PM25_START[CATEGORIES[i]] == (CATEGORIES[i + 1], AQI_RANGE[CATEGORIES[i + 1]].0)
  {
  }

  /** `AQI_RANGE.get(pred, (None, None))`: the range shown on the result card. */
  function TypicalRange(pred: string): (r: (Option<int>, Option<int>))
    ensures pred in CATEGORIES ==> r == (Some(AQI_RANGE[pred].0), Some(AQI_RANGE[pred].1))
    ensures pred !in CATEGORIES ==> r == (None, None)
  {
    if pred in AQI_RANGE then (Some(AQI_RANGE[pred].0), Some(AQI_RANGE[pred].1)) else (None, None)
  }

  function MaxReal(a: real, b: real): real {
    if a >= b then a else b
  }

  function MaxInt(a: int, b: int): int {
    if a >= b then a else b
  }

  /** `np.clip(x, lo, hi)`. */
  function Clip(x: real, lo: real, hi: real): real {
    if x < lo then lo else if x > hi then hi else x
  }

  /** The figures of the "progress to next-worse category" panel. */
  datatype Panel = Panel(nextCategory: string, nextStart: int, remaining: real, lowCurrent: int, denom: int, pct: real)

  /**
    The threshold panel for a predicted category and the PM2.5 input: shown for
    every category but Hazardous, absent for Hazardous and for unlisted labels.
   */
  function ThresholdPanel(pred: string, pm25: real): (r: Option<Panel>)
    ensures r.None? <==> pred == "Hazardous" || pred !in CATEGORIES
    ensures r.Some? ==>
      r.value.denom >= 1 && r.value.lowCurrent == AQI_RANGE[pred].0 &&
      (r.value.nextCategory, r.value.nextStart) == NEXT_WORSE_PM25_START[pred]
    ensures r.Some? ==>
      r.value.remaining >= 0.0 &&
      (r.value.remaining == 0.0 <==> pm25 >= r.value.nextStart as real) &&
      (pm25 < r.value.nextStart as real ==> r.value.remaining == r.value.nextStart as real - pm25)
    ensures r.Some? ==> 0.0 <= r.value.pct <= 100.0
    ensures r.Some? ==> (r.value.pct == 0.0 <==> pm25 <= r.value.lowCurrent as real)
  {
    if pred !in NEXT_WORSE_PM25_START then None
    else
      var (nxtCat, nxtStart) := NEXT_WORSE_PM25_START[pred];
      var remaining := MaxReal(0.0, nxtStart as real - pm25);
      var loCurrent := if pred in AQI_RANGE then AQI_RANGE[pred].0 else 0;
      var denom := MaxInt(1, nxtStart - loCurrent);
      var pct := Clip((pm25 - loCurrent as real) / denom as real * 100.0, 0.0, 100.0);
      Some(Panel(nxtCat, nxtStart, remaining, loCurrent, denom, pct))
  }

  /** The bar is full exactly when nothing remains before the next-worse category. */
  lemma PanelFullIffNoneRemaining(pred: string, pm25: real)
    requires ThresholdPanel(pred, pm25).Some?
    ensures var p := ThresholdPanel(pred, pm25).value;
      p.denom == p.nextStart - p.lowCurrent && (p.pct == 100.0 <==> p.remaining == 0.0)
  {
    var p := ThresholdPanel(pred, pm25).value;
    var d := p.denom as real;
    var x := pm25 - p.lowCurrent as real;
    assert p.denom == p.nextStart - p.lowCurrent;
    assert d >= 1.0;
    if x >= d {
      assert x / d >= 1.0;
    } else {
      assert x / d < 1.0;
    }
  }

  /** The nearest-city card. */
  datatype CityCard = CityCard(city: string, country: string, aqiValue: int, category: string, distanceKm: real)

  /** The row has every column the card reads with `row[...]`. */
  predicate HasCardFields(s: Station) {
    s.city.Some? && s.country.Some? && s.aqiValue.Some? && s.aqiCategory.Some?
  }

  /**
    The nearest-city block: drop rows without coordinates, take the first row
    at minimum distance and show it with `dists.min()`. No card when no row
    remains, or when the chosen row lacks a column (the `KeyError` is swallowed).
   */
  method NearestCityCard(df: seq<Station>, lat: real, lng: real, haversine: DistanceFn)
    returns (card: Option<CityCard>)
    ensures var rows := DropMissingCoords(df);
      var ds := Distances(lat, lng, rows, haversine);
      card.Some? <==> (exists i: nat :: IsFirstMinimum(ds, i) && HasCardFields(rows[i]))
    ensures var rows := DropMissingCoords(df);
      var ds := Distances(lat, lng, rows, haversine);
      card.Some? ==>
        exists i: nat :: IsFirstMinimum(ds, i) && HasCardFields(rows[i]) &&
          card.value == CityCard(rows[i].city.value, rows[i].country.value, rows[i].aqiValue.value,
                                 rows[i].aqiCategory.value, ds[i])
  {
    var rows := DropMissingCoords(df);
    if |rows| == 0 {
      return None;
    }
    var dists := Distances(lat, lng, rows, haversine);
    var idx := ArgMin(dists);
    var row := rows[idx.value];
    forall i: nat | IsFirstMinimum(dists, i)
      ensures i == idx.value
    {
      FirstMinimumUnique(dists, i, idx.value);
    }
    if !HasCardFields(row) {
      return None;
    }
    var d := SeqMin(dists);
    FirstMinimumIsMin(dists, idx.value);
    card := Some(CityCard(row.city.value, row.country.value, row.aqiValue.value, row.aqiCategory.value, d));
    assert IsFirstMinimum(dists, idx.value) && HasCardFields(rows[idx.value]);
    assert rows == DropMissingCoords(df);
    assert dists == Distances(lat, lng, DropMissingCoords(df), haversine);
    return card;
  }
}
