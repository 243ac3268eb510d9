/** The `/nearest-city` endpoint of app/model_api.py and the dataset it serves from. */
module ModelApi {
  import opened Wrappers
  import opened Locator

  /** The JSON body of a successful `/nearest-city` response. */
  datatype CityRecord = CityRecord(city: string, country: string, aqiValue: int, aqiCategory: string, distanceKm: real)

  /** An `HTTPException` raised by the endpoint. */
  datatype HttpError = HttpError(status: int, detail: string)

  /**
    The module-level `_df`, assigned once at import: `csv` is the parsed file,
    or `None` when reading it failed, which leaves the dataset empty.
   */
  function LoadDataset(csv: Option<seq<Station>>): (data: seq<Station>)
    ensures csv.None? ==> data == []
    ensures csv.Some? ==> forall s :: s in data <==> s in csv.value && HasCoords(s)
    ensures csv.Some? ==> data == DropMissingCoords(csv.value)
    ensures forall i :: 0 <= i < |data| ==> HasCoords(data[i])
  {
    match csv
    case None => []
    case Some(rows) => DropMissingCoords(rows)
  }

  /** The response record of a row: absent columns read as "" (text) and 0 (AQI Value). */
  function RecordOf(s: Station, distanceKm: real): (r: CityRecord)
    ensures r.city == (if s.city.Some? then s.city.value else "")
    ensures r.country == (if s.country.Some? then s.country.value else "")
    ensures r.aqiValue == (if s.aqiValue.Some? then s.aqiValue.value else 0)
    ensures r.aqiCategory == (if s.aqiCategory.Some? then s.aqiCategory.value else "")
    ensures r.distanceKm == distanceKm
  {
    CityRecord(
      match s.city case Some(c) => c case None => "",
      match s.country case Some(c) => c case None => "",
      match s.aqiValue case Some(v) => v case None => 0,
      match s.aqiCategory case Some(c) => c case None => "",
      distanceKm)
  }

  /**
    `nearest_city`: an empty dataset is an HTTP 500 "Dataset not available";
    otherwise the record of the first row at minimum distance, with that distance.
   */
  method NearestCity(data: seq<Station>, lat: real, lng: real, haversine: DistanceFn)
    returns (r: Result<CityRecord, HttpError>)
    requires forall i :: 0 <= i < |data| ==> HasCoords(data[i])
    ensures r.Err? <==> |data| == 0
    ensures r.Err? ==> r.error == HttpError(500, "Dataset not available")
    ensures r.Ok? ==> var ds := Distances(lat, lng, data, haversine);
      exists i: nat :: IsFirstMinimum(ds, i) && r.value == RecordOf(data[i], ds[i])
    ensures r.Ok? ==> r.value.distanceKm == SeqMin(Distances(lat, lng, data, haversine))
  {
    if |data| == 0 {
      return Err(HttpError(500, "Dataset not available"));
    }
    var dists := Distances(lat, lng, data, haversine);
    var idx := ArgMin(dists);
    FirstMinimumIsMin(dists, idx.value);
    return Ok(RecordOf(data[idx.value], dists[idx.value]));
  }
}
