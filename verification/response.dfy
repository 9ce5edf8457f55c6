/** The response half of `get_gbif_occurrences` on a reply of any shape
    (app.py, lines 28-38). The code checks nothing about the decoded reply;
    this module follows what Python does with each JSON shape, including the
    exceptions it raises. */
module Response {
  import opened Wrappers
  import opened Text
  import opened Json
  import opened Occurrences

  /** The Python exceptions an unexpected reply shape raises. */
  datatype Fault =
    | NoGetMethod   // AttributeError: `.get` called on something that is not a dict
    | NotIterable   // TypeError: the `results` value is None, a bool or a number
    | NotContainer  // TypeError: `in` applied to an entry that is None, a bool or a number

  /** Python's `name in entry`, for an entry of any JSON shape. */
  function Contains(entry: Json, name: string): Result<bool, Fault>
  {
    match entry
    case JObject(f) => Success(name in f)
    case JString(s) => Success(IsSubstring(name, s))
    case JArray(xs) => Success(JString(name) in xs)
    case _ => Failure(NotContainer)
  }

  /** A text holds both coordinate key names as substrings. */
  predicate NamesBoth(s: string) {
    IsSubstring("decimalLatitude", s) && IsSubstring("decimalLongitude", s)
  }

  /** One pass of the loop body (lines 30-38). An entry that passes the two
      membership tests without being a dict fails at its first `.get`. */
  function Step(entry: Json): Result<seq<Row>, Fault> {
    match Contains(entry, "decimalLatitude")
    case Failure(f) => Failure(f)
    case Success(false) => Success([])
    case Success(true) =>
      match Contains(entry, "decimalLongitude")
      case Failure(f) => Failure(f)
      case Success(false) => Success([])
      case Success(true) =>
        match entry
        case JObject(f) => Success([Project(f)])
        case _ => Failure(NoGetMethod)
  }

  /** The loop over the entries, stopping at the first exception. */
  function Walk(items: seq<Json>): (r: Result<seq<Row>, Fault>)
    ensures r.Success? ==> |r.value| <= |items|
    decreases |items|
  {
    if |items| == 0 then Success([])
    else
      match Walk(items[..|items| - 1])
      case Failure(f) => Failure(f)
      case Success(rows) =>
        match Step(items[|items| - 1])
        case Failure(f) => Failure(f)
        case Success(more) => Success(rows + more)
  }

  /** The loop as the source writes it: append row by row, and let the first
      exception end the whole call. */
  method CollectRows(items: seq<Json>) returns (r: Result<seq<Row>, Fault>)
    ensures r == Walk(items)
  {
    var rows: seq<Row> := [];
    var i := 0;
    while i < |items|
      invariant 0 <= i <= |items|
      invariant Walk(items[..i]) == Success(rows)
    {
      assert items[..i + 1][..i] == items[..i];
      var step := Step(items[i]);
      if step.Failure? {
        r := Failure(step.error);
        FirstFaultStops(items, i + 1);
        return;
      }
      rows := rows + step.value;
      i := i + 1;
    }
    assert items[..i] == items;
    r := Success(rows);
  }

  /** Once a prefix of the entries raises, the whole loop raises the same. */
  lemma {:induction false} FirstFaultStops(items: seq<Json>, n: nat)
    requires n <= |items|
    requires Walk(items[..n]).Failure?
    ensures Walk(items) == Walk(items[..n])
    decreases |items| - n
  {
    if n < |items| {
      assert items[..n + 1][..n] == items[..n];
      FirstFaultStops(items, n + 1);
    } else {
      assert items[..n] == items;
    }
  }

  /** The loop raises exactly when some entry raises, and then it raises
      what the first such entry raises. */
  lemma {:induction false} WalkFault(items: seq<Json>)
    ensures Walk(items).Failure? <==> exists i :: 0 <= i < |items| && Step(items[i]).Failure?
    ensures Walk(items).Failure? ==>
              exists i :: 0 <= i < |items| && Step(items[i]) == Failure(Walk(items).error)
                          && forall j :: 0 <= j < i ==> Step(items[j]).Success?
    decreases |items|
  {
    if |items| > 0 {
      var n := |items| - 1;
      WalkFault(items[..n]);
      assert forall j :: 0 <= j < n ==> items[..n][j] == items[j];
    }
  }

  /** The dict entries of a reply, in order. */
  function Records(items: seq<Json>): seq<Record>
    requires forall i :: 0 <= i < |items| ==> items[i].JObject?
  {
    seq(|items|, i requires 0 <= i < |items| && items[i].JObject? => items[i].fields)
  }

  /** When every entry is a dict the loop never raises and yields the
      filtered, projected rows. */
  lemma {:induction false} WalkRecords(items: seq<Json>)
    requires forall i :: 0 <= i < |items| ==> items[i].JObject?
    ensures Walk(items) == Success(Flatten(Records(items)))
    decreases |items|
  {
    if |items| > 0 {
      var n := |items| - 1;
      WalkRecords(items[..n]);
      assert Records(items)[..n] == Records(items[..n]);
    }
  }

  /** Text entries, one per string. */
  function Texts(ks: seq<string>): seq<Json>
  {
    seq(|ks|, i requires 0 <= i < |ks| => JString(ks[i]))
  }

  /** Walking text entries yields no rows, and raises exactly when one of
      them names both coordinate keys. */
  lemma {:induction false} WalkTexts(ks: seq<string>)
    ensures Walk(Texts(ks)) ==
              if exists i :: 0 <= i < |ks| && NamesBoth(ks[i]) then Failure(NoGetMethod) else Success([])
    decreases |ks|
  {
    if |ks| > 0 {
      var n := |ks| - 1;
      assert Texts(ks)[..n] == Texts(ks[..n]);
      WalkTexts(ks[..n]);
      assert forall i :: 0 <= i < n ==> ks[..n][i] == ks[i];
    }
  }

  /** List entries, one per element list. */
  function Lists(xss: seq<seq<Json>>): seq<Json> {
    seq(|xss|, i requires 0 <= i < |xss| => JArray(xss[i]))
  }

  /** A list holds both coordinate key names as elements. */
  predicate ListsBoth(xs: seq<Json>) {
    JString("decimalLatitude") in xs && JString("decimalLongitude") in xs
  }

  /** Walking list entries yields no rows, and raises at the first `.get`
      exactly when one of them holds both coordinate key names. */
  lemma {:induction false} WalkLists(xss: seq<seq<Json>>)
    ensures Walk(Lists(xss)) ==
              if exists i :: 0 <= i < |xss| && ListsBoth(xss[i]) then Failure(NoGetMethod) else Success([])
    decreases |xss|
  {
    if |xss| > 0 {
      var n := |xss| - 1;
      assert Lists(xss)[..n] == Lists(xss[..n]);
      WalkLists(xss[..n]);
      assert forall i :: 0 <= i < n ==> xss[..n][i] == xss[i];
    }
  }

  /** The one-character strings that iterating over a string produces. */
  function Characters(s: string): seq<Json>
  {
    Texts(seq(|s|, i requires 0 <= i < |s| => [s[i]]))
  }

  /** Iterating `data.get("results", [])` for each shape of that value. A dict
      is iterated over its keys; the outcome is the same in every key order
      (see `KeysInAnyOrder`). */
  function WalkResults(results: Json): Result<seq<Row>, Fault> {
    match results
    case JArray(items) => Walk(items)
    case JString(s) => Walk(Characters(s))
    case JObject(f) => if exists k | k in f.Keys :: NamesBoth(k) then Failure(NoGetMethod) else Success([])
    case _ => Failure(NotIterable)
  }

  /** The rows built from one decoded reply, or the exception raised. */
  function Rows(data: Json): (r: Result<seq<Row>, Fault>)
    ensures !data.JObject? ==> r == Failure(NoGetMethod)
    ensures data.JObject? && "results" !in data.fields ==> r == Success([])
  {
    match data
    case JObject(top) => if "results" in top then WalkResults(top["results"]) else Success([])
    case _ => Failure(NoGetMethod)
  }

  /** A well-formed reply, a dict whose `results` is a list of dicts, yields
      the filtered, projected rows and never raises. */
  lemma WellFormedReply(top: map<string, Json>, items: seq<Json>)
    requires "results" in top && top["results"] == JArray(items)
    requires forall i :: 0 <= i < |items| ==> items[i].JObject?
    ensures Rows(JObject(top)) == Success(Flatten(Records(items)))
  {
    WalkRecords(items);
  }

  /** A string as `results` is iterated character by character; no single
      character contains a key name, so it yields no rows and raises nothing. */
  lemma CharactersYieldNothing(s: string)
    ensures WalkResults(JString(s)) == Success([])
  {
    var ks := seq(|s|, i requires 0 <= i < |s| => [s[i]]);
    WalkTexts(ks);
    forall i | 0 <= i < |ks|
      ensures !NamesBoth(ks[i])
    {
      assert |ks[i]| == 1;
    }
  }

  /** A dict as `results` is iterated over its keys in insertion order, which
      the decoded map does not keep; any listing of the keys gives the same
      outcome. */
  lemma KeysInAnyOrder(f: map<string, Json>, ks: seq<string>)
    requires forall k :: k in f <==> k in ks
    ensures Walk(Texts(ks)) == WalkResults(JObject(f))
  {
    WalkTexts(ks);
    if exists k | k in f.Keys :: NamesBoth(k) {
      var k :| k in f.Keys && NamesBoth(k);
      var i :| 0 <= i < |ks| && ks[i] == k;
    }
  }
}
