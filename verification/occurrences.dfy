/** The response half of `get_gbif_occurrences` on well-formed input: keep the
    results that carry both coordinate keys and project six fields of each
    into a table row (app.py, lines 28-38). */
module Occurrences {
  import opened Json

  /** One table row. Fields read with `get` hold `JNull` (Python's None)
      when the result lacks the key. */
  datatype Row = Row(species: Json, lat: Json, lon: Json,
                     country: Json, date: Json, basisOfRecord: Json)

  /** The result keys a row is built from. */
  const SourceKeys: set<string> :=
    {"scientificName", "decimalLatitude", "decimalLongitude", "country", "eventDate", "basisOfRecord"}

  /** The keys whose presence, not value, decides whether a result is kept. */
  const CoordinateKeys: set<string> := {"decimalLatitude", "decimalLongitude"}

  /** A result is kept exactly when both coordinate keys are present. */
  predicate Qualifies(r: Record) {
    "decimalLatitude" in r && "decimalLongitude" in r
  }

  /** The row for a kept result. */
  function Project(r: Record): Row
    requires Qualifies(r)
  {
    Row(species := Get(r, "scientificName"),
        lat := r["decimalLatitude"],
        lon := r["decimalLongitude"],
        country := Get(r, "country"),
        date := Get(r, "eventDate"),
        basisOfRecord := Get(r, "basisOfRecord"))
  }

  /** The rows contributed by one result: none or one. */
  function Emit(r: Record): seq<Row> {
    if Qualifies(r) then [Project(r)] else []
  }

  /** The rows for a list of results, in order: the loop of lines 29-38. */
  function Flatten(rs: seq<Record>): (rows: seq<Row>)
    ensures |rows| <= |rs|
    decreases |rs|
  {
    if |rs| == 0 then [] else Flatten(rs[..|rs| - 1]) + Emit(rs[|rs| - 1])
  }

  /** The positions of the kept results, in increasing order. This is the
      reference description of the filter, independent of the row building. */
  function Kept(rs: seq<Record>): (ks: seq<nat>)
    ensures forall k :: 0 <= k < |ks| ==> ks[k] < |rs| && Qualifies(rs[ks[k]])
    ensures forall k, l :: 0 <= k < l < |ks| ==> ks[k] < ks[l]
    ensures forall i :: 0 <= i < |rs| && Qualifies(rs[i]) ==> i in ks
    decreases |rs|
  {
    if |rs| == 0 then []
    else
      var n := |rs| - 1;
      var prefix := Kept(rs[..n]);
      assert forall k :: 0 <= k < |prefix| ==> rs[prefix[k]] == rs[..n][prefix[k]];
      assert forall i :: 0 <= i < n ==> rs[i] == rs[..n][i];
      prefix + (if Qualifies(rs[n]) then [n] else [])
  }

  /** The rows are exactly the projections of the kept results, in their
      original order: filter-then-map. */
  lemma {:induction false} FlattenProjectsKept(rs: seq<Record>)
    ensures |Flatten(rs)| == |Kept(rs)|
    ensures forall k :: 0 <= k < |Kept(rs)| ==> Flatten(rs)[k] == Project(rs[Kept(rs)[k]])
    decreases |rs|
  {
    if |rs| > 0 {
      var n := |rs| - 1;
      FlattenProjectsKept(rs[..n]);
      var ks := Kept(rs[..n]);
      assert forall k :: 0 <= k < |ks| ==> rs[ks[k]] == rs[..n][ks[k]];
    }
  }

  /** A result yields a row exactly when it has both coordinate keys, and the
      row's coordinates are the result's own values. */
  lemma RowIffCoordinates(r: Record)
    ensures |Flatten([r])| == 1 <==> "decimalLatitude" in r && "decimalLongitude" in r
    ensures |Flatten([r])| == 1 ==>
              Flatten([r])[0].lat == r["decimalLatitude"] && Flatten([r])[0].lon == r["decimalLongitude"]
  {
  }

  /** Flattening distributes over concatenation, so a longer reply only adds
      rows after those of the shorter one. */
  lemma {:induction false} FlattenAppend(a: seq<Record>, b: seq<Record>)
    ensures Flatten(a + b) == Flatten(a) + Flatten(b)
    decreases |b|
  {
    if |b| == 0 {
      assert a + b == a;
    } else {
      var n := |b| - 1;
      assert (a + b)[..|a + b| - 1] == a + b[..n];
      assert (a + b)[|a + b| - 1] == b[n];
      FlattenAppend(a, b[..n]);
    }
  }

  /** Missing optional keys never drop a result: removing every key other
      than the coordinates leaves the number of rows unchanged. */
  lemma {:induction false} OptionalKeysNeverExclude(rs: seq<Record>, strip: seq<Record>)
    requires |strip| == |rs|
    requires forall i :: 0 <= i < |rs| ==>
               strip[i].Keys <= rs[i].Keys && CoordinateKeys * rs[i].Keys <= strip[i].Keys
    ensures |Flatten(strip)| == |Flatten(rs)|
    decreases |rs|
  {
    if |rs| > 0 {
      var n := |rs| - 1;
      OptionalKeysNeverExclude(rs[..n], strip[..n]);
      assert Qualifies(strip[n]) <==> Qualifies(rs[n]);
    }
  }

  /** Writes a row back under the result's own key names, leaving out the
      optional fields that are None. */
  function Unproject(row: Row): Record {
    map["decimalLatitude" := row.lat, "decimalLongitude" := row.lon]
      + OptionalEntry("scientificName", row.species)
      + OptionalEntry("country", row.country)
      + OptionalEntry("eventDate", row.date)
      + OptionalEntry("basisOfRecord", row.basisOfRecord)
  }

  function OptionalEntry(key: string, v: Json): Record {
    if v == JNull then map[] else map[key := v]
  }

  /** A row keeps everything of its result that the table uses: writing it
      back recovers the result restricted to the six source keys, except
      that optional fields holding JSON null read the same as missing ones. */
  lemma ProjectRoundTrip(r: Record)
    requires Qualifies(r)
    ensures Unproject(Project(r)) ==
              map k | k in r && k in SourceKeys && (k in CoordinateKeys || r[k] != JNull) :: r[k]
  {
    var back := Unproject(Project(r));
    var expected := map k | k in r && k in SourceKeys && (k in CoordinateKeys || r[k] != JNull) :: r[k];
    forall k | k in back
      ensures k in expected && back[k] == expected[k]
    {
      assert k in SourceKeys;
    }
    forall k | k in expected
      ensures k in back
    {
      assert k in SourceKeys;
    }
    assert back.Keys == expected.Keys;
  }

  /** Example: of two results, one without a longitude,
      only the other becomes a row. */
  lemma MissingLongitudeExample(withBoth: Record, withoutLon: Record)
    requires "decimalLatitude" in withBoth && "decimalLongitude" in withBoth
    requires "decimalLongitude" !in withoutLon
    ensures Flatten([withBoth, withoutLon]) == [Project(withBoth)]
  {
  }
}
