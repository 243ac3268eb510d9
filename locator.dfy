/**
  Nearest-point selection shared by app/model_api.py and app/app.py: keep the
  rows that have both coordinates, then choose the first row at minimum
  distance. The great-circle distance itself is a parameter.
 */
module Locator {
  import opened Wrappers

  /**
    One row of the reference dataset. `lat`/`lng` are `None` when missing (NaN);
    the other fields are `None` when the dataset has no such column.
   */
  datatype Station = Station(
    city: Option<string>,
    country: Option<string>,
    aqiValue: Option<int>,
    aqiCategory: Option<string>,
    lat: Option<real>,
    lng: Option<real>)

  /** Distance in km from `(lat1, lng1)` to `(lat2, lng2)`; haversine in the source. */
  type DistanceFn = (real, real, real, real) -> real

  predicate HasCoords(s: Station) {
    s.lat.Some? && s.lng.Some?
  }

  /** `dropna(subset=["lat", "lng"])`: the rows with both coordinates, in their order. */
  function DropMissingCoords(rows: seq<Station>): (kept: seq<Station>)
    ensures |kept| <= |rows|
    ensures forall s :: s in kept <==> s in rows && HasCoords(s)
    ensures forall i :: 0 <= i < |kept| ==> HasCoords(kept[i])
    ensures (forall i :: 0 <= i < |rows| ==> HasCoords(rows[i])) ==> kept == rows
    ensures |rows| == 1 ==> kept == if HasCoords(rows[0]) then rows else []
  {
    if |rows| == 0 then []
    else
      var rest := DropMissingCoords(rows[1..]);
      assert forall s :: s in rows <==> s == rows[0] || s in rows[1..];
      if HasCoords(rows[0]) then [rows[0]] + rest else rest
  }

  /**
    The filter works row by row and keeps the order of the file: filtering a
    concatenation is concatenating the filtered parts.
   */
  lemma {:induction false} DropMissingCoordsConcat(a: seq<Station>, b: seq<Station>)
    ensures DropMissingCoords(a + b) == DropMissingCoords(a) + DropMissingCoords(b)
  {
    if |a| == 0 {
      assert a + b == b;
    } else {
      assert (a + b)[1..] == a[1..] + b;
      DropMissingCoordsConcat(a[1..], b);
    }
  }

  /** The distance from the query point to every row (the vectorised haversine). */
  function Distances(lat: real, lng: real, rows: seq<Station>, dist: DistanceFn): (ds: seq<real>)
    requires forall i :: 0 <= i < |rows| ==> HasCoords(rows[i])
    ensures |ds| == |rows|
    ensures forall i :: 0 <= i < |rows| ==> HasCoords(rows[i]) && ds[i] == dist(lat, lng, rows[i].lat.value, rows[i].lng.value)
  {
    seq(|rows|, i requires 0 <= i < |rows| && HasCoords(rows[i]) => dist(lat, lng, rows[i].lat.value, rows[i].lng.value))
  }

  /** `i` is where the minimum of `ds` first occurs. */
  predicate IsFirstMinimum(ds: seq<real>, i: nat) {
    i < |ds| &&
    (forall j :: 0 <= j < |ds| ==> ds[i] <= ds[j]) &&
    (forall j :: 0 <= j < i ==> ds[i] < ds[j])
  }

  /** At most one index is the first minimum. */
  lemma FirstMinimumUnique(ds: seq<real>, i: nat, k: nat)
    requires IsFirstMinimum(ds, i) && IsFirstMinimum(ds, k)
    ensures i == k
  {
    assert ds[i] == ds[k];
  }

  /**
    `np.argmin` / `Series.idxmin`: a scan that keeps the best index and value
    and moves only on a strictly smaller distance, so ties go to the first.
   */
  method ArgMin(ds: seq<real>) returns (r: Option<nat>)
    ensures r.None? <==> |ds| == 0
    ensures r.Some? ==> IsFirstMinimum(ds, r.value)
  {
    if |ds| == 0 {
      return None;
    }
    var best, bestDist := 0, ds[0];
    for i := 1 to |ds|
      invariant best < i && bestDist == ds[best]
      invariant forall j :: 0 <= j < i ==> bestDist <= ds[j]
      invariant forall j :: 0 <= j < best ==> bestDist < ds[j]
    {
      if ds[i] < bestDist {
        best, bestDist := i, ds[i];
      }
    }
    return Some(best);
  }

  /** `Series.min()`: the smallest distance. */
  function SeqMin(ds: seq<real>): (m: real)
    requires |ds| > 0
    ensures m in ds
    ensures forall j :: 0 <= j < |ds| ==> m <= ds[j]
  {
    if |ds| == 1 then ds[0]
    else
      var rest := SeqMin(ds[1..]);
      if ds[0] <= rest then ds[0] else rest
  }

  /** The value at the first minimum is the minimum. */
  lemma FirstMinimumIsMin(ds: seq<real>, i: nat)
    requires IsFirstMinimum(ds, i)
    ensures ds[i] == SeqMin(ds)
  {
  }
}
