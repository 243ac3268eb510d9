/**
  Properties that tie app/aqi_math.py to the lookups of app/utils.py and the
  range tables of app/app.py: every label the classifier produces is one of
  the six, has a colour and its own advisory, and agrees with the AQI bands.
 */
module Consistency {
  import opened Wrappers
  import opened AqiMath
  import opened Utils
  import opened App

  /** The severity rank of each label the classifier can return for a number. */
  lemma SeverityOfCategory(v: real)
    ensures Severity(Category(Conc(v))).Some?
    ensures Severity(Category(Conc(v))).value ==
      if v <= 50.0 then 0 else if v <= 100.0 then 1 else if v <= 150.0 then 2
      else if v <= 200.0 then 3 else if v <= 300.0 then 4 else 5
  {
    var r := Severity(Category(Conc(v)));
    assert r.Some?;
    LookupTablesAgree();
  }

  /** Every label of a number is listed, coloured and has its own advisory. */
  lemma CategoryIsListed(v: real)
    ensures Category(Conc(v)) in CATEGORIES && Category(Conc(v)) in COLORS
    ensures HealthTip(Category(Conc(v))) == TIPS[Category(Conc(v))] != DEFAULT_TIP
  {
    LookupTablesAgree();
  }

  /** "Unknown" has no colour, the default advisory, no range and no threshold panel. */
  lemma UnknownIsUnlisted(pm25: real)
    ensures Category(Missing) !in COLORS
    ensures HealthTip(Category(Missing)) == DEFAULT_TIP
    ensures TypicalRange(Category(Missing)) == (None, None)
    ensures ThresholdPanel(Category(Missing), pm25).None?
  {
  }

  /** A worse sub-index never gets a milder label. */
  lemma CategoryMonotone(a: real, b: real)
    requires a <= b
    ensures Severity(Category(Conc(a))).Some? && Severity(Category(Conc(b))).Some?
    ensures Severity(Category(Conc(a))).value <= Severity(Category(Conc(b))).value
  {
    SeverityOfCategory(a);
    SeverityOfCategory(b);
  }

  /** On 0..500 the classifier and the AQI bands agree, in both directions. */
  lemma CategoryAgreesWithRange(v: int, name: string)
    requires 0 <= v <= 500
    ensures Category(Conc(v as real)) == name <==> InAqiRange(v, name)
  {
    AqiRangePartition(v);
  }

  /** Every sub-index the interpolator yields lies in the band of its own category. */
  lemma SubIndexInItsBand(val: Reading, pollutant: string)
    requires ToAqi(val, pollutant).Ok? && ToAqi(val, pollutant).value.Some?
    ensures var n := ToAqi(val, pollutant).value.value;
      Category(Conc(n as real)) in CATEGORIES && InAqiRange(n, Category(Conc(n as real)))
  {
    var n := ToAqi(val, pollutant).value.value;
    ToAqiBounded(val, pollutant);
    CategoryIsListed(n as real);
    CategoryAgreesWithRange(n, Category(Conc(n as real)));
  }
}
