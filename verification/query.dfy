/** The request half of `get_gbif_occurrences`: the query parameters sent to
    the GBIF occurrence-search endpoint (app.py, lines 8-23). */
module Query {
  import opened Wrappers
  import opened Text

  /** The limit used when the caller gives none. */
  const DefaultLimit: int := 500

  /** The keys present in every parameter map. */
  const BaseKeys: set<string> := {"scientificName", "limit", "hasCoordinate"}

  /** The year filter, `(start, end)`; no order between the two is enforced. */
  datatype YearRange = YearRange(first: int, last: int)

  /** The bounding box `(lat_min, lat_max, lon_min, lon_max)`; `F` is the
      caller's coordinate type (floating point in the application). */
  datatype BBox<F> = BBox(latMin: F, latMax: F, lonMin: F, lonMax: F)

  /** The query parameters for one search. `show` renders a coordinate as
      text, the way an f-string renders a float. Integers are rendered in
      decimal, as the HTTP layer renders the integer `limit`. */
  function BuildParams<F>(name: string, limit: int, years: Option<YearRange>,
                          bbox: Option<BBox<F>>, show: F -> string): (p: map<string, string>)
    ensures "scientificName" in p && p["scientificName"] == name
    ensures "limit" in p && ParseInt(p["limit"]) == Some(limit)
    ensures "hasCoordinate" in p && p["hasCoordinate"] == "true"
    ensures "year" in p <==> years.Some?
    ensures years.Some? ==>
              p["year"] == CommaPair(IntToString(years.value.first), IntToString(years.value.last))
    ensures "decimalLatitude" in p <==> bbox.Some?
    ensures "decimalLongitude" in p <==> bbox.Some?
    ensures bbox.Some? ==>
              && p["decimalLatitude"] == CommaPair(show(bbox.value.latMin), show(bbox.value.latMax))
              && p["decimalLongitude"] == CommaPair(show(bbox.value.lonMin), show(bbox.value.lonMax))
    ensures p.Keys == BaseKeys
                      + (if years.Some? then {"year"} else {})
                      + (if bbox.Some? then {"decimalLatitude", "decimalLongitude"} else {})
  {
    IntRoundTrip(limit);
    var base := map["scientificName" := name,
                     "limit" := IntToString(limit),
                     "hasCoordinate" := "true"];
    var withYears :=
      match years
      case None => base
      case Some(y) => base["year" := CommaPair(IntToString(y.first), IntToString(y.last))];
    match bbox
    case None => withYears
    case Some(b) =>
      withYears["decimalLatitude" := CommaPair(show(b.latMin), show(b.latMax))]
               ["decimalLongitude" := CommaPair(show(b.lonMin), show(b.lonMax))]
  }

  /** Reads a year filter value `start,end` back into a range. */
  function ParseYearRange(s: string): Option<YearRange> {
    match SplitAtComma(s)
    case None => None
    case Some((a, b)) =>
      match (ParseInt(a), ParseInt(b))
      case (Some(first), Some(last)) => Some(YearRange(first, last))
      case _ => None
  }

  /** The `year` parameter reads back as exactly the range supplied. */
  lemma YearParamRoundTrip<F>(name: string, limit: int, years: Option<YearRange>,
                              bbox: Option<BBox<F>>, show: F -> string)
    requires years.Some?
    ensures ParseYearRange(BuildParams(name, limit, years, bbox, show)["year"]) == years
  {
    var y := years.value;
    var a, b := IntToString(y.first), IntToString(y.last);
    SplitCommaPair(a, b);
    IntRoundTrip(y.first);
    IntRoundTrip(y.last);
  }

  /** When coordinates render without commas, the two box parameters split
      back into `lat_min,lat_max` and `lon_min,lon_max`, in that order. */
  lemma BBoxParamRoundTrip<F>(name: string, limit: int, years: Option<YearRange>,
                              bbox: Option<BBox<F>>, show: F -> string)
    requires bbox.Some?
    requires forall x :: ',' !in show(x)
    ensures var p := BuildParams(name, limit, years, bbox, show);
            && SplitAtComma(p["decimalLatitude"]) == Some((show(bbox.value.latMin), show(bbox.value.latMax)))
            && SplitAtComma(p["decimalLongitude"]) == Some((show(bbox.value.lonMin), show(bbox.value.lonMax)))
  {
    var b := bbox.value;
    SplitCommaPair(show(b.latMin), show(b.latMax));
    SplitCommaPair(show(b.lonMin), show(b.lonMax));
  }

  /** Example: for "Danaus plexippus", a year range and no box give `year=2000,2020` and
      no coordinate filters. */
  lemma DanausExample(show: real -> string)
    ensures var p := BuildParams("Danaus plexippus", DefaultLimit, Some(YearRange(2000, 2020)), None, show);
            && p["year"] == "2000,2020"
            && p["scientificName"] == "Danaus plexippus"
            && "decimalLatitude" !in p && "decimalLongitude" !in p
  {
  }
}
