/**
  The breakpoint interpolator and the category classifier of app/aqi_math.py.

  Concentrations are exact reals, so the table literals (12.1, 35.4, ...) are
  exact and the gaps between bands (12.0 < c < 12.1 for PM2.5, say) hold
  genuinely out-of-range values.
 */
module AqiMath {
  import opened Wrappers

  /** One row of a breakpoint table: `(Clow, Chigh, Ilow, Ihigh)`. */
  datatype Breakpoint = Breakpoint(cLow: real, cHigh: real, iLow: int, iHigh: int)

  /** A concentration or sub-index as the caller hands it over: `None`, a NaN float, or a number. */
  datatype Reading = Missing | NaN | Conc(value: real)

  /** Raised by `BPS[pollutant]` for a pollutant the tables do not know. */
  datatype KeyError = KeyError(key: string)

  /** The breakpoint tables, keyed by pollutant (units are the caller's business). */
  /** Fine particulate matter, ug/m3. */
  const PM25_TABLE: seq<Breakpoint> := [
    Breakpoint(0.0, 12.0, 0, 50),
    Breakpoint(12.1, 35.4, 51, 100),
    Breakpoint(35.5, 55.4, 101, 150),
    Breakpoint(55.5, 150.4, 151, 200),
    Breakpoint(150.5, 250.4, 201, 300),
    Breakpoint(250.5, 500.4, 301, 500)
  ]

  /** Ozone, ppb (8 h). */
  const O3_TABLE: seq<Breakpoint> := [
    Breakpoint(0.0, 54.0, 0, 50),
    Breakpoint(55.0, 70.0, 51, 100),
    Breakpoint(71.0, 85.0, 101, 150),
    Breakpoint(86.0, 105.0, 151, 200),
    Breakpoint(106.0, 200.0, 201, 300)
  ]

  /** Nitrogen dioxide, ppb (1 h). */
  const NO2_TABLE: seq<Breakpoint> := [
    Breakpoint(0.0, 53.0, 0, 50),
    Breakpoint(54.0, 100.0, 51, 100),
    Breakpoint(101.0, 360.0, 101, 150),
    Breakpoint(361.0, 649.0, 151, 200),
    Breakpoint(650.0, 1249.0, 201, 300),
    Breakpoint(1250.0, 2049.0, 301, 500)
  ]

  /** Carbon monoxide, ppm (8 h). */
  const CO_TABLE: seq<Breakpoint> := [
    Breakpoint(0.0, 4.4, 0, 50),
    Breakpoint(4.5, 9.4, 51, 100),
    Breakpoint(9.5, 12.4, 101, 150),
    Breakpoint(12.5, 15.4, 151, 200),
    Breakpoint(15.5, 30.4, 201, 300),
    Breakpoint(30.5, 50.4, 301, 500)
  ]

  /** The breakpoint tables, keyed by pollutant (units are the caller's business). */
  const BPS: map<string, seq<Breakpoint>> :=
    map["pm25" := PM25_TABLE, "o3" := O3_TABLE, "no2" := NO2_TABLE, "co" := CO_TABLE]

  // ---------------------------------------------------------------------------
  // Table well-formedness

  predicate WellFormedBand(b: Breakpoint) {
    b.cLow < b.cHigh && 0 <= b.iLow < b.iHigh <= 500
  }

  /**
    Every band is well formed, the first starts at concentration 0 and index 0,
    consecutive bands are strictly ascending in concentration and each index
    range starts one above the previous one's end.
   */
  predicate WellFormedTable(t: seq<Breakpoint>) {
    |t| > 0 && t[0].cLow == 0.0 && t[0].iLow == 0 &&
    (forall k :: 0 <= k < |t| ==> WellFormedBand(t[k])) &&
    (forall k :: 0 <= k < |t| - 1 ==> t[k].cHigh < t[k + 1].cLow && t[k + 1].iLow == t[k].iHigh + 1)
  }

  /** The four tables are well formed; ozone tops out at 300, the others at 500. */
  lemma TablesWellFormed()
    ensures forall p :: p in BPS ==> WellFormedTable(BPS[p])
    ensures Last(O3_TABLE).iHigh == 300
    ensures Last(PM25_TABLE).iHigh == 500 && Last(NO2_TABLE).iHigh == 500 && Last(CO_TABLE).iHigh == 500
  {
    assert WellFormedTable(PM25_TABLE);
    assert WellFormedTable(O3_TABLE);
    assert WellFormedTable(NO2_TABLE);
    assert WellFormedTable(CO_TABLE);
  }

  function Last(t: seq<Breakpoint>): Breakpoint
    requires |t| > 0
  {
    t[|t| - 1]
  }

  /** Adjacent ordering extends to every pair of bands. */
  lemma {:induction false} Ascending(t: seq<Breakpoint>, i: nat, j: nat)
    requires WellFormedTable(t) && i < j < |t|
    ensures t[i].cHigh < t[j].cLow
    ensures t[i].iHigh < t[j].iLow
    decreases j - i
  {
    if i + 1 < j {
      Ascending(t, i + 1, j);
    }
  }

  // ---------------------------------------------------------------------------
  // Python's round(): half to even

  function RoundHalfEven(x: real): (n: int)
    ensures n as real - 0.5 <= x <= n as real + 0.5
    ensures (x == n as real + 0.5 || x == n as real - 0.5) ==> n % 2 == 0
  {
    var f := x.Floor;
    var d := x - f as real;
    if d < 0.5 then f
    else if d > 0.5 then f + 1
    else if f % 2 == 0 then f
    else f + 1
  }

  /** The two conditions of RoundHalfEven's contract determine its result. */
  lemma RoundHalfEvenUnique(x: real, m: int)
    requires m as real - 0.5 <= x <= m as real + 0.5
    requires (x == m as real + 0.5 || x == m as real - 0.5) ==> m % 2 == 0
    ensures m == RoundHalfEven(x)
  {
  }

  lemma RoundMonotone(x: real, y: real)
    requires x <= y
    ensures RoundHalfEven(x) <= RoundHalfEven(y)
  {
  }

  /** Rounding a value that lies between two integers stays between them. */
  lemma RoundBetween(lo: int, x: real, hi: int)
    requires lo as real <= x <= hi as real
    ensures lo <= RoundHalfEven(x) <= hi
  {
    RoundHalfEvenUnique(lo as real, lo);
    RoundHalfEvenUnique(hi as real, hi);
    RoundMonotone(lo as real, x);
    RoundMonotone(x, hi as real);
  }

  // ---------------------------------------------------------------------------
  // Interpolation

  predicate InBand(c: real, b: Breakpoint) {
    b.cLow <= c <= b.cHigh
  }

  /** `_linear`: the AQI equation for one band. */
  function Linear(c: real, b: Breakpoint): (r: real)
    requires b.cLow != b.cHigh
    ensures c == b.cLow ==> r == b.iLow as real
    ensures c == b.cHigh ==> r == b.iHigh as real
  {
    (b.iHigh - b.iLow) as real / (b.cHigh - b.cLow) * (c - b.cLow) + b.iLow as real
  }

  lemma LinearMonotone(c1: real, c2: real, b: Breakpoint)
    requires b.cLow < b.cHigh && b.iLow <= b.iHigh && c1 <= c2
    ensures Linear(c1, b) <= Linear(c2, b)
  {
    var slope := (b.iHigh - b.iLow) as real / (b.cHigh - b.cLow);
    assert slope >= 0.0;
    assert slope * (c2 - b.cLow) - slope * (c1 - b.cLow) == slope * (c2 - c1);
    assert slope * (c2 - c1) >= 0.0;
  }

  /** Within a band the interpolated value lies in the band's index range. */
  lemma LinearInBand(c: real, b: Breakpoint)
    requires WellFormedBand(b) && InBand(c, b)
    ensures b.iLow as real <= Linear(c, b) <= b.iHigh as real
  {
    LinearMonotone(b.cLow, c, b);
    LinearMonotone(c, b.cHigh, b);
  }

  /** The first band of `t`, in table order, that holds `c`. */
  function FirstBand(c: real, t: seq<Breakpoint>): (r: Option<nat>)
    ensures r.Some? ==> r.value < |t| && InBand(c, t[r.value])
    ensures r.Some? ==> forall j :: 0 <= j < r.value ==> !InBand(c, t[j])
    ensures r.None? ==> forall j :: 0 <= j < |t| ==> !InBand(c, t[j])
  {
    if |t| == 0 then None
    else if InBand(c, t[0]) then Some(0)
    else match FirstBand(c, t[1..])
      case None => None
      case Some(k) => Some(k + 1)
  }

  /** In a well-formed table at most one band holds a value, so it is the first. */
  lemma FirstBandIsOnlyBand(c: real, t: seq<Breakpoint>, k: nat)
    requires WellFormedTable(t) && k < |t| && InBand(c, t[k])
    ensures FirstBand(c, t) == Some(k)
  {
    var r := FirstBand(c, t);
    assert r.Some?;
    if r.value < k {
      Ascending(t, r.value, k);
    }
  }

  /** `to_aqi`: a concentration's sub-index for one pollutant. */
  function ToAqi(val: Reading, pollutant: string): (r: Result<Option<int>, KeyError>)
    ensures (val.Missing? || val.NaN?) ==> r == Ok(None)
    ensures val.Conc? && pollutant !in BPS ==> r == Err(KeyError(pollutant))
    ensures val.Conc? && pollutant in BPS ==>
      r.Ok? && (r.value.Some? <==> exists k :: 0 <= k < |BPS[pollutant]| && InBand(val.value, BPS[pollutant][k]))
  {
    match val
    case Missing => Ok(None)
    case NaN => Ok(None)
    case Conc(c) =>
      if pollutant !in BPS then Err(KeyError(pollutant))
      else
        var t := BPS[pollutant];
        match FirstBand(c, t)
        case None => Ok(None)
        case Some(k) =>
          TablesWellFormed();
          Ok(Some(RoundHalfEven(Linear(c, t[k]))))
  }

  /** A concentration inside band `k` of a table gets that band's rounded interpolation. */
  lemma ToAqiInBand(c: real, pollutant: string, k: nat)
    requires pollutant in BPS && k < |BPS[pollutant]| && InBand(c, BPS[pollutant][k])
    ensures ToAqi(Conc(c), pollutant).Ok? && ToAqi(Conc(c), pollutant).value.Some?
    ensures var b := BPS[pollutant][k];
      var n := ToAqi(Conc(c), pollutant).value.value;
      b.cLow != b.cHigh && n == RoundHalfEven(Linear(c, b)) && b.iLow <= n <= b.iHigh
  {
    TablesWellFormed();
    var t := BPS[pollutant];
    FirstBandIsOnlyBand(c, t, k);
    LinearInBand(c, t[k]);
    RoundBetween(t[k].iLow, Linear(c, t[k]), t[k].iHigh);
  }

  /** Band endpoints are exact: `Clow` gives `Ilow` and `Chigh` gives `Ihigh`. */
  lemma ToAqiAtBandEnds(pollutant: string, k: nat)
    requires pollutant in BPS && k < |BPS[pollutant]|
    ensures ToAqi(Conc(BPS[pollutant][k].cLow), pollutant) == Ok(Some(BPS[pollutant][k].iLow))
    ensures ToAqi(Conc(BPS[pollutant][k].cHigh), pollutant) == Ok(Some(BPS[pollutant][k].iHigh))
  {
    TablesWellFormed();
    var b := BPS[pollutant][k];
    ToAqiInBand(b.cLow, pollutant, k);
    ToAqiInBand(b.cHigh, pollutant, k);
    RoundHalfEvenUnique(b.iLow as real, b.iLow);
    RoundHalfEvenUnique(b.iHigh as real, b.iHigh);
  }

  /** Every sub-index `to_aqi` produces lies in [0, 500]. */
  lemma ToAqiBounded(val: Reading, pollutant: string)
    requires ToAqi(val, pollutant).Ok? && ToAqi(val, pollutant).value.Some?
    ensures 0 <= ToAqi(val, pollutant).value.value <= 500
  {
    TablesWellFormed();
    var t := BPS[pollutant];
    var k := FirstBand(val.value, t).value;
    ToAqiInBand(val.value, pollutant, k);
  }

  /**
    `to_aqi` is monotone: within a band, and across bands too, since the
    tables ascend and each index range starts above the previous one.
   */
  lemma ToAqiMonotone(c1: real, c2: real, pollutant: string)
    requires c1 <= c2
    requires ToAqi(Conc(c1), pollutant).Ok? && ToAqi(Conc(c1), pollutant).value.Some?
    requires ToAqi(Conc(c2), pollutant).Ok? && ToAqi(Conc(c2), pollutant).value.Some?
    ensures ToAqi(Conc(c1), pollutant).value.value <= ToAqi(Conc(c2), pollutant).value.value
  {
    TablesWellFormed();
    var t := BPS[pollutant];
    var j := FirstBand(c1, t).value;
    var k := FirstBand(c2, t).value;
    ToAqiInBand(c1, pollutant, j);
    ToAqiInBand(c2, pollutant, k);
    if j == k {
      LinearMonotone(c1, c2, t[k]);
      RoundMonotone(Linear(c1, t[k]), Linear(c2, t[k]));
    } else if j < k {
      Ascending(t, j, k);
    } else {
      Ascending(t, k, j);
    }
  }

  /** No band lies in a gap between consecutive bands, below 0 or above the top. */
  lemma ToAqiOutOfRange(c: real, pollutant: string)
    requires pollutant in BPS
    requires var t := BPS[pollutant];
      c < 0.0 || c > Last(t).cHigh ||
      exists k :: 0 <= k < |t| - 1 && t[k].cHigh < c < t[k + 1].cLow
    ensures ToAqi(Conc(c), pollutant) == Ok(None)
  {
    TablesWellFormed();
    var t := BPS[pollutant];
    forall j | 0 <= j < |t|
      ensures !InBand(c, t[j])
    {
      if 0 < j { Ascending(t, 0, j); }
      if j < |t| - 1 { Ascending(t, j, |t| - 1); }
      if k :| 0 <= k < |t| - 1 && t[k].cHigh < c < t[k + 1].cLow {
        if j < k { Ascending(t, j, k); }
        if k + 1 < j { Ascending(t, k + 1, j); }
      }
    }
  }

  /** The documented examples: PM2.5 12.0 -> 50, 12.1 -> 51; 12.05, 600.0 and ozone 201 are out of range. */
  lemma DocumentedExamples()
    ensures ToAqi(Conc(12.0), "pm25") == Ok(Some(50))
    ensures ToAqi(Conc(12.1), "pm25") == Ok(Some(51))
    ensures ToAqi(Conc(12.05), "pm25") == Ok(None)
    ensures ToAqi(Conc(600.0), "pm25") == Ok(None)
    ensures ToAqi(Conc(201.0), "o3") == Ok(None)
  {
    ToAqiAtBandEnds("pm25", 0);
    ToAqiAtBandEnds("pm25", 1);
  }

  // ---------------------------------------------------------------------------
  // Classification

  /**
    `category`: the health label of a sub-index; `None` is "Unknown". A NaN
    passes the `None` test and fails every comparison, so it is "Hazardous".
   */
  function Category(aqi: Reading): (name: string)
    ensures name == "Unknown" <==> aqi.Missing?
    ensures aqi.NaN? ==> name == "Hazardous"
  {
    match aqi
    case Missing => "Unknown"
    case NaN => "Hazardous"
    case Conc(v) =>
      if v <= 50.0 then "Good"
      else if v <= 100.0 then "Moderate"
      else if v <= 150.0 then "Unhealthy for Sensitive Groups"
      else if v <= 200.0 then "Unhealthy"
      else if v <= 300.0 then "Very Unhealthy"
      else "Hazardous"
  }

  /** The cut-offs are inclusive upper bounds, and everything above 300 is Hazardous. */
  lemma CategoryCutoffs(v: real)
    ensures Category(Conc(50.0)) == "Good" && Category(Conc(50.5)) == "Moderate"
    ensures Category(Conc(100.0)) == "Moderate" && Category(Conc(150.0)) == "Unhealthy for Sensitive Groups"
    ensures Category(Conc(200.0)) == "Unhealthy" && Category(Conc(300.0)) == "Very Unhealthy"
    ensures v > 300.0 ==> Category(Conc(v)) == "Hazardous"
  {
  }
}
