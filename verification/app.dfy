/** One query-render cycle of the application (app.py, lines 61-87): the
    guard on the species name, the search, and what the page then shows. */
module App {
  import opened Wrappers
  import opened Json
  import opened Occurrences
  import opened Response
  import opened Query
  import opened Export

  /** What a cycle ends in. */
  datatype View =
    | Idle                                          // empty species name: nothing is queried
    | NoRecords(params: map<string, string>)        // the warning: no rows after filtering
    | Crashed(params: map<string, string>, fault: Fault)  // an exception escapes the cycle
    | Found(params: map<string, string>, rows: seq<Row>, fileName: string)

  /** A cycle for the sidebar's values. The year slider always supplies a
      range; the box is present only when its checkbox is ticked. `reply` is
      the decoded body the search endpoint answered with. */
  function Search<F>(name: string, limit: int, years: YearRange, bbox: Option<BBox<F>>,
                     show: F -> string, reply: Json): (v: View)
    ensures v.Idle? <==> name == ""
    ensures !v.Idle? ==> v.params == BuildParams(name, limit, Some(years), bbox, show)
    ensures v.NoRecords? <==> name != "" && Rows(reply) == Success([])
    ensures v.Crashed? <==> name != "" && Rows(reply).Failure?
    ensures v.Crashed? ==> Rows(reply) == Failure(v.fault)
    ensures v.Found? ==> Rows(reply) == Success(v.rows) && |v.rows| > 0
    ensures v.Found? ==> v.fileName == DownloadName(name)
  {
    if name == "" then Idle
    else
      var params := BuildParams(name, limit, Some(years), bbox, show);
      match Rows(reply)
      case Failure(f) => Crashed(params, f)
      case Success(rows) =>
        if |rows| == 0 then NoRecords(params) else Found(params, rows, DownloadName(name))
  }

  /** Every search the page issues names the species verbatim and filters by
      year, and filters by coordinates exactly when the box is ticked. */
  lemma SearchSendsYearFilter<F>(name: string, limit: int, years: YearRange, bbox: Option<BBox<F>>,
                                 show: F -> string, reply: Json)
    requires name != ""
    ensures var v := Search(name, limit, years, bbox, show, reply);
            && v.params["scientificName"] == name
            && ParseYearRange(v.params["year"]) == Some(years)
            && ("decimalLatitude" in v.params <==> bbox.Some?)
            && ("decimalLongitude" in v.params <==> bbox.Some?)
  {
    YearParamRoundTrip(name, limit, Some(years), bbox, show);
  }
}
