/**
 * The historical-locations job (src/grafcan/files/update_historical_locations.py):
 * the list of historical locations is fetched, each result's one-element
 * `location` list is flattened in place, and for every result a row combining
 * the station (thing) record, the location record and the start-up time is
 * built, indexed from 1, and saved.  The HTTP requests are the function `api`
 * from a URL value to the decoded JSON document, and the CSV write is `save`.
 */
module HistoricalLocations {
  import opened Values
  import opened StationRecords

  /**
   * The exception a parser lets escape for a construction error `e`: `KeyError`
   * is re-raised as `KeyError`, anything else as a generic `Exception`; for an
   * argument that is not a dictionary the handler's own `.get('id')` raises
   * `AttributeError` first.
   */
  function Reraise(v: Value, e: Exc): Exc
  {
    if !v.Object? then AttributeError else if e == KeyError then KeyError else GenericException
  }

  /** `FetchLocationsData.parse_locations_data`: the location record with `location_` column names. */
  function ParseLocationsData(location: Value): (r: Result<Dict>)
    ensures !location.Object? ==> r == Err(AttributeError)
    ensures r.Err? ==> r.error in {KeyError, GenericException, AttributeError}
  {
    match LocationRecord(location)
    case Err(e) => Err(Reraise(location, e))
    case Ok(record) => Ok(AddPrefix("location_", record))
  }

  /** `FetchThingsData.parse_things_data`: the station record with `thing_` column names. */
  function ParseThingsData(station: Value): (r: Result<Dict>)
    ensures !station.Object? ==> r == Err(AttributeError)
    ensures r.Err? ==> r.error in {KeyError, GenericException, AttributeError}
  {
    match ThingRecord(station)
    case Err(e) => Err(Reraise(station, e))
    case Ok(record) => Ok(AddPrefix("thing_", record))
  }

  /** The column names `add_prefix(p)` gives to records with keys `ks`. */
  function Prefixed(p: string, ks: seq<string>): (cs: seq<string>)
    ensures |cs| == |ks|
    ensures forall i :: 0 <= i < |ks| ==> cs[i] == p + ks[i]
  {
    seq(|ks|, i requires 0 <= i < |ks| => p + ks[i])
  }

  const LocationColumns: seq<string> := Prefixed("location_", LocationKeys)

  const ThingColumns: seq<string> := Prefixed("thing_", ThingKeys)

  lemma KeysAddPrefix(p: string, d: Dict)
    ensures Keys(AddPrefix(p, d)) == Prefixed(p, Keys(d))
  {
  }

  /**
   * A location document gives exactly the five `location_` columns, longitude
   * and latitude being the first and second coordinates.  A missing `id`,
   * `name`, `description` or `location`, a `location` without `coordinates`,
   * or a coordinates dictionary (which has no key `0`) re-raises `KeyError`;
   * a `location` that is not a dictionary, a coordinates value that is not a
   * sequence, or a coordinates list shorter than two raises the generic
   * `Exception` wrapping its `TypeError` or `IndexError`.
   */
  lemma ParseLocationsDataFields(d: Dict)
    ensures var r := ParseLocationsData(Object(d));
            (r.Ok? ==> Keys(r.value) == LocationColumns &&
                       r.value[3].val == Coordinate(Object(d), 0).value && r.value[4].val == Coordinate(Object(d), 1).value &&
                       forall i :: 0 <= i < 3 ==> r.value[i].val == Get(d, LocationKeys[i])) &&
            (!HasLocationKeys(d) ==> r == Err(KeyError))
    ensures HasLocationKeys(d) && Get(d, "location").Object? && Lookup(Get(d, "location").entries, "coordinates").Some? &&
            Lookup(Get(d, "location").entries, "coordinates").value.List? ==>
              var xs := Lookup(Get(d, "location").entries, "coordinates").value.items;
              var r := ParseLocationsData(Object(d));
              (r.Ok? <==> |xs| >= 2) &&
              (|xs| < 2 ==> r == Err(GenericException)) &&
              (|xs| >= 2 ==> r.value[3].val == xs[0] && r.value[4].val == xs[1])
    ensures HasLocationKeys(d) && !Get(d, "location").Object? ==> ParseLocationsData(Object(d)) == Err(GenericException)
    ensures HasLocationKeys(d) && Get(d, "location").Object? ==>
              var c := Lookup(Get(d, "location").entries, "coordinates");
              var r := ParseLocationsData(Object(d));
              (c.None? ==> r == Err(KeyError)) &&
              (c.Some? && c.value.Object? ==> r == Err(KeyError)) &&
              (c.Some? && !(c.value.List? || c.value.Object? || c.value.Str?) ==> r == Err(GenericException))
  {
    LocationRecordFields(d);
    var r := LocationRecord(Object(d));
    if r.Ok? {
      KeysAddPrefix("location_", r.value);
    }
  }

  /**
   * A station document gives exactly the eight `thing_` columns, the four
   * `properties` sub-keys defaulting to `None`; a missing `id`, `name`,
   * `description`, `properties` or `location_set` raises `KeyError`, and a
   * `properties` value that is not a dictionary raises the generic `Exception`.
   */
  lemma ParseThingsDataFields(d: Dict)
    ensures var r := ParseThingsData(Object(d));
            (r.Ok? <==> HasThingKeys(d) && Get(d, "properties").Object?) &&
            (r.Ok? ==> Keys(r.value) == ThingColumns &&
                       (forall i :: 0 <= i < 8 && i !in {3, 4, 5, 6} ==> r.value[i].val == Get(d, ThingKeys[i])) &&
                       (forall i :: 3 <= i < 7 ==> r.value[i].val == Get(Get(d, "properties").entries, ThingKeys[i]))) &&
            (!HasThingKeys(d) && (Get(d, "properties").Object? || !HasKey(d, "properties")) ==> r == Err(KeyError)) &&
            (HasThingKeys(d) && !Get(d, "properties").Object? ==> r == Err(GenericException))
  {
    ThingRecordFields(d);
    var r := ThingRecord(Object(d));
    if r.Ok? {
      KeysAddPrefix("thing_", r.value);
      assert forall i :: 0 <= i < 8 ==> r.value[i].key == ThingKeys[i];
    }
  }

  // ---------------------------------------------------------------------------
  // format_historical_locations_data

  /** One pass of the loop of `format_historical_locations_data`: the result with its `location` list flattened. */
  function FormatOne(result: Value): Result<Value>
  {
    if !result.Object? then Err(TypeError)
    else
      match Lookup(result.entries, "location")
      case None => Err(KeyError)
      case Some(locations) =>
        match Len(locations)
        case Err(e) => Err(e)
        case Ok(n) =>
          if n != 1 then Err(GenericException)
          else
            match Subscript(locations, Pos(0))
            case Err(e) => Err(e)
            case Ok(first) => Ok(Object(Set(result.entries, "location", first)))
  }

  /**
   * A result is rewritten exactly when its `location` is a one-element list (or
   * a one-character string); the rewritten result has the same keys, its
   * `location` is that element, and every other key keeps its value.  A list of
   * any other length raises the generic `Exception`.
   */
  lemma FormatOneRewrites(result: Value)
    ensures result.Object? && Lookup(result.entries, "location").Some? && Lookup(result.entries, "location").value.List? ==>
              var xs := Lookup(result.entries, "location").value.items;
              (FormatOne(result).Ok? <==> |xs| == 1) &&
              (|xs| != 1 ==> FormatOne(result) == Err(GenericException))
    ensures FormatOne(result).Ok? ==>
              var d, d' := result.entries, FormatOne(result).value;
              d'.Object? && Keys(d'.entries) == Keys(d) &&
              (forall k :: k != "location" ==> Lookup(d'.entries, k) == Lookup(d, k)) &&
              (Lookup(d, "location").value.List? ==> Lookup(d'.entries, "location") == Some(Lookup(d, "location").value.items[0]))
  {
    if FormatOne(result).Ok? {
      var first := Subscript(Lookup(result.entries, "location").value, Pos(0)).value;
      SetProperties(result.entries, "location", first);
    }
  }

  /** The position of the first result the loop cannot format, or the number of results. */
  function FirstFormatFailure(rs: seq<Value>): (n: nat)
    ensures n <= |rs|
    ensures forall i :: 0 <= i < n ==> FormatOne(rs[i]).Ok?
    ensures n < |rs| ==> FormatOne(rs[n]).Err?
  {
    if rs == [] || FormatOne(rs[0]).Err? then 0 else 1 + FirstFormatFailure(rs[1..])
  }

  /** The formatted list, or the exception of the first result that cannot be formatted. */
  function FormatAll(rs: seq<Value>): Result<seq<Value>>
  {
    if rs == [] then Ok([])
    else
      match FormatOne(rs[0])
      case Err(e) => Err(e)
      case Ok(x) =>
        match FormatAll(rs[1..])
        case Err(e) => Err(e)
        case Ok(rest) => Ok([x] + rest)
  }

  /** The formatted list keeps the count and order of the results. */
  lemma {:induction false} FormatAllResults(rs: seq<Value>)
    ensures FormatAll(rs).Ok? <==> FirstFormatFailure(rs) == |rs|
    ensures FormatAll(rs).Ok? ==>
              |FormatAll(rs).value| == |rs| &&
              forall i :: 0 <= i < |rs| ==> FormatAll(rs).value[i] == FormatOne(rs[i]).value
    ensures FormatAll(rs).Err? ==> FormatAll(rs).error == FormatOne(rs[FirstFormatFailure(rs)]).error
  {
    if rs != [] && FormatOne(rs[0]).Ok? {
      FormatAllResults(rs[1..]);
      if FormatAll(rs[1..]).Ok? {
        forall i | 0 <= i < |rs| ensures FormatAll(rs).value[i] == FormatOne(rs[i]).value {
          if i > 0 {
            assert rs[1..][i - 1] == rs[i];
          }
        }
      } else {
        assert rs[1..][FirstFormatFailure(rs[1..])] == rs[FirstFormatFailure(rs)];
      }
    }
  }

  /** The results with the first `n` of them formatted and the others as they were. */
  function PartlyFormatted(rs: seq<Value>, n: nat): (r: seq<Value>)
    requires n <= FirstFormatFailure(rs)
    ensures |r| == |rs|
    ensures forall i :: 0 <= i < |rs| ==> r[i] == if i < n then FormatOne(rs[i]).value else rs[i]
  {
    seq(|rs|, i requires 0 <= i < |rs| => if i < n then FormatOne(rs[i]).value else rs[i])
  }

  /** Formatting one more result extends the formatted prefix by one. */
  lemma PartlyFormattedStep(rs: seq<Value>, n: nat)
    requires n < FirstFormatFailure(rs)
    ensures PartlyFormatted(rs, n)[n := FormatOne(rs[n]).value] == PartlyFormatted(rs, n + 1)
  {
  }

  /** With every result formatted, the list is the formatted list. */
  lemma AllFormatted(rs: seq<Value>)
    requires FormatAll(rs).Ok?
    ensures FirstFormatFailure(rs) == |rs| && PartlyFormatted(rs, |rs|) == FormatAll(rs).value
  {
    FormatAllResults(rs);
  }

  /**
   * `format_historical_locations_data` on the `results` list: every result's
   * `location` is replaced in place by its sole element; when a result cannot be
   * formatted the exception escapes and the results before it stay rewritten.
   */
  method FormatHistoricalLocationsData(results: array<Value>) returns (status: Status)
    modifies results
    ensures var r := FormatAll(old(results[..]));
            (r.Ok? ==> status == Done && results[..] == r.value) &&
            (r.Err? ==> status == Failed(r.error))
    ensures forall i :: 0 <= i < results.Length ==>
              results[i] == if i < FirstFormatFailure(old(results[..])) then FormatOne(old(results[..])[i]).value else old(results[..])[i]
  {
    ghost var original := results[..];
    ghost var stop := FirstFormatFailure(original);
    FormatAllResults(original);
    var k := 0;
    while k < results.Length
      invariant 0 <= k <= stop
      invariant results[..] == PartlyFormatted(original, k)
    {
      var formatted := FormatOne(results[k]);
      if formatted.Err? {
        assert k == stop;
        return Failed(formatted.error);
      }
      PartlyFormattedStep(original, k);
      results[k] := formatted.value;
      k := k + 1;
    }
    status := Done;
    assert k == stop;
    AllFormatted(original);
  }

  // ---------------------------------------------------------------------------
  // build_row and run

  /** The `try` block of `build_row`: the combined row, or the exception it raised. */
  function BuildAttempt(location: Value, api: Value -> Result<Value>): Result<Dict>
  {
    match Subscript(location, Key("time")) case Err(e) => Err(e) case Ok(startUp) =>
    match Subscript(location, Key("thing")) case Err(e) => Err(e) case Ok(thingUrl) =>
    match api(thingUrl) case Err(e) => Err(e) case Ok(responseThing) =>
    match ParseThingsData(responseThing) case Err(e) => Err(e) case Ok(thing) =>
    match Subscript(location, Key("location")) case Err(e) => Err(e) case Ok(locationUrl) =>
    match api(locationUrl) case Err(e) => Err(e) case Ok(responseLocation) =>
    match ParseLocationsData(responseLocation) case Err(e) => Err(e) case Ok(place) =>
    CombineRow(thing, place, startUp)
  }

  /**
   * The cell `row[c] = v` stores in the single row of a frame: a scalar is
   * broadcast, a list must have one element per row and gives that element,
   * and a dictionary is aligned on the row labels, whose only label `0` no
   * JSON key equals, so the cell is missing.
   */
  function AssignedCell(v: Value): (r: Result<Value>)
    ensures r.Err? <==> v.List? && |v.items| != 1
    ensures r.Err? ==> r.error == ValueError
    ensures v.List? && |v.items| == 1 ==> r == Ok(v.items[0])
    ensures v.Object? ==> r == Ok(Null)
    ensures !(v.List? || v.Object?) ==> r == Ok(v)
  {
    match v
    case List(xs) => if |xs| == 1 then Ok(xs[0]) else Err(ValueError)
    case Object(_) => Ok(Null)
    case _ => Ok(v)
  }

  /** `pd.concat([thing, place], axis=1)` followed by `row["start_up_station"] = startUp`. */
  function CombineRow(thing: Dict, place: Dict, startUp: Value): Result<Dict>
  {
    match AssignedCell(startUp)
    case Err(e) => Err(e)
    case Ok(cell) => Ok(Set(thing + place, "start_up_station", cell))
  }

  /**
   * `build_row`: `Some` row, `None` when the `try` block raised, or the
   * exception the handler itself raises when its message reads a missing
   * `location['thing']`.
   */
  function BuildRow(location: Value, api: Value -> Result<Value>): Result<Option<Dict>>
  {
    match BuildAttempt(location, api)
    case Ok(row) => Ok(Some(row))
    case Err(_) =>
      match Subscript(location, Key("thing"))
      case Err(e) => Err(e)
      case Ok(_) => Ok(None)
  }

  /** No station or location column is called `start_up_station`. */
  lemma NoStartUpColumn(both: Dict)
    requires Keys(both) == ThingColumns + LocationColumns
    ensures !HasKey(both, "start_up_station")
  {
    KeysHasKey(both, "start_up_station");
    assert forall i :: 0 <= i < |both| ==> Keys(both)[i][0] != 's';
  }

  /**
   * The combined row has the station columns, then the location columns, then
   * `start_up_station` holding the assigned cell; a start-up list whose length
   * is not the frame's one row raises `ValueError`.
   */
  lemma CombinedColumns(thing: Dict, place: Dict, startUp: Value)
    requires Keys(thing) == ThingColumns && Keys(place) == LocationColumns
    ensures var r := CombineRow(thing, place, startUp);
            (r.Err? <==> startUp.List? && |startUp.items| != 1) &&
            (r.Err? ==> r.error == ValueError) &&
            (r.Ok? ==> Keys(r.value) == ThingColumns + LocationColumns + ["start_up_station"] &&
                       Lookup(r.value, "start_up_station") == Some(AssignedCell(startUp).value) &&
                       forall k :: k != "start_up_station" ==> Lookup(r.value, k) == Lookup(thing + place, k))
  {
    var both := thing + place;
    assert Keys(both) == Keys(thing) + Keys(place);
    if AssignedCell(startUp).Ok? {
      StartUpColumnAdded(both, AssignedCell(startUp).value);
    }
  }

  /** Setting `start_up_station` on the concatenated row appends it as the last column and changes no other. */
  lemma StartUpColumnAdded(both: Dict, cell: Value)
    requires Keys(both) == ThingColumns + LocationColumns
    ensures var row := Set(both, "start_up_station", cell);
            Keys(row) == ThingColumns + LocationColumns + ["start_up_station"] &&
            Lookup(row, "start_up_station") == Some(cell) &&
            forall k :: k != "start_up_station" ==> Lookup(row, k) == Lookup(both, k)
  {
    NoStartUpColumn(both);
    SetProperties(both, "start_up_station", cell);
  }

  /**
   * A built row has the station columns, then the location columns, then
   * `start_up_station` holding the cell the result's `time` assigns; any
   * failure inside the `try` block, among them a `time` list whose length is
   * not one, becomes `None` as long as the result has a `thing`.
   */
  lemma BuildRowColumns(location: Value, api: Value -> Result<Value>)
    ensures var r := BuildRow(location, api);
            r.Ok? && r.value.Some? ==>
              location.Object? &&
              Keys(r.value.value) == ThingColumns + LocationColumns + ["start_up_station"] &&
              Lookup(r.value.value, "start_up_station") == Some(AssignedCell(Get(location.entries, "time")).value)
    ensures BuildAttempt(location, api).Err? && location.Object? ==>
              BuildRow(location, api) == if HasKey(location.entries, "thing") then Ok(None) else Err(KeyError)
    ensures location.Object? && Get(location.entries, "time").List? && |Get(location.entries, "time").items| != 1 ==>
              BuildAttempt(location, api).Err?
  {
    if BuildAttempt(location, api).Ok? {
      var t := api(Subscript(location, Key("thing")).value).value;
      var l := api(Subscript(location, Key("location")).value).value;
      ParseThingsDataFields(t.entries);
      ParseLocationsDataFields(l.entries);
      CombinedColumns(ParseThingsData(t).value, ParseLocationsData(l).value, Get(location.entries, "time"));
    }
  }

  /** A row of the saved table: its index `[n]` and its cells. */
  datatype Row = Row(index: int, cells: Dict)

  /** The exception the loop of `run` stops with on a result whose row was not built. */
  function CrashError(built: Result<Option<Dict>>): Exc
  {
    match built
    case Err(e) => e
    case Ok(_) => AttributeError   // `row.index = [n]` on `None`
  }

  predicate Built(built: Result<Option<Dict>>)
  {
    built.Ok? && built.value.Some?
  }

  /** What `build_row` gives for every result, in order. */
  function BuildRows(locs: seq<Value>, api: Value -> Result<Value>): (bs: seq<Result<Option<Dict>>>)
    ensures |bs| == |locs|
    ensures forall i :: 0 <= i < |locs| ==> bs[i] == BuildRow(locs[i], api)
  {
    seq(|locs|, i requires 0 <= i < |locs| => BuildRow(locs[i], api))
  }

  /** The rows the loop of `run` collects from the outcomes `bs` of `build_row`, numbered from 1, or the exception that ends it. */
  function CollectRows(bs: seq<Result<Option<Dict>>>): Result<seq<Row>>
  {
    if bs == [] then Ok([])
    else
      match CollectRows(bs[..|bs| - 1])
      case Err(e) => Err(e)
      case Ok(rows) =>
        var built := bs[|bs| - 1];
        if Built(built) then Ok(rows + [Row(|bs|, built.value.value)]) else Err(CrashError(built))
  }

  /** One more outcome of `build_row` adds its row, numbered by its position, or ends the loop with its exception. */
  lemma CollectRowsStep(bs: seq<Result<Option<Dict>>>, n: nat)
    requires 1 <= n <= |bs|
    requires CollectRows(bs[..n - 1]).Ok?
    ensures CollectRows(bs[..n]) ==
              if Built(bs[n - 1]) then Ok(CollectRows(bs[..n - 1]).value + [Row(n, bs[n - 1].value.value)])
              else Err(CrashError(bs[n - 1]))
  {
    assert bs[..n][..n - 1] == bs[..n - 1];
  }

  /** Once the loop has stopped with an exception, the later results do not matter. */
  lemma {:induction false} CollectRowsStops(bs: seq<Result<Option<Dict>>>, k: nat)
    requires k <= |bs|
    requires CollectRows(bs[..k]).Err?
    ensures CollectRows(bs) == CollectRows(bs[..k])
    decreases |bs| - k
  {
    if k < |bs| {
      var init := bs[..|bs| - 1];
      assert init[..k] == bs[..k];
      CollectRowsStops(init, k);
    } else {
      assert bs[..k] == bs;
    }
  }

  /**
   * The loop of `run` skips no result: it collects one row per result, the n-th
   * with index `[n]`, exactly when every row is built.
   */
  lemma {:induction false} CollectRowsNumbered(bs: seq<Result<Option<Dict>>>)
    ensures CollectRows(bs).Ok? <==> forall i :: 0 <= i < |bs| ==> Built(bs[i])
    ensures CollectRows(bs).Ok? ==>
              |CollectRows(bs).value| == |bs| &&
              forall i :: 0 <= i < |bs| ==> CollectRows(bs).value[i] == Row(i + 1, bs[i].value.value)
  {
    if bs != [] {
      var init := bs[..|bs| - 1];
      CollectRowsNumbered(init);
      assert forall i :: 0 <= i < |init| ==> init[i] == bs[i];
    }
  }

  /**
   * Otherwise the loop stops with the exception of the first result whose row
   * was not built: `AttributeError` when `build_row` returned `None`, since
   * `row.index = [n]` runs before the `None` check.
   */
  lemma CollectRowsCrash(bs: seq<Result<Option<Dict>>>, n: nat)
    requires n < |bs| && !Built(bs[n])
    requires forall i :: 0 <= i < n ==> Built(bs[i])
    ensures CollectRows(bs) == Err(CrashError(bs[n]))
  {
    var prefix := bs[..n + 1];
    CollectRowsNumbered(prefix[..n]);
    assert forall i :: 0 <= i < n ==> prefix[..n][i] == bs[i];
    assert prefix[..n] == prefix[..|prefix| - 1];
    CollectRowsStops(bs, n + 1);
  }

  /** How `run` ends. */
  datatype HistoricalOutcome =
    | Aborted(error: Exc)       // fetching or formatting failed: reported, nothing saved
    | Crashed(error: Exc)       // an exception escaped the loop
    | SaveFailed(error: Exc)    // concatenation or the CSV write failed: reported
    | Saved(rows: seq<Row>)

  /** `StationMetadataFetcher.run` of the historical-locations job, given the response document `fetched`. */
  function HistoricalRun(fetched: Result<Value>, api: Value -> Result<Value>, save: seq<Row> -> Status): HistoricalOutcome
  {
    match fetched
    case Err(e) => Aborted(e)
    case Ok(response) =>
      match Subscript(response, Key("results"))
      case Err(e) => Aborted(e)
      case Ok(results) =>
        match Iterate(results)
        case Err(e) => Aborted(e)
        case Ok(items) =>
          match FormatAll(items)
          case Err(e) => Aborted(e)
          case Ok(historical) =>
            match CollectRows(BuildRows(historical, api))
            case Err(e) => Crashed(e)
            case Ok(rows) =>
              if rows == [] then SaveFailed(ValueError)   // `pd.concat([])`
              else match save(rows) case Failed(e) => SaveFailed(e) case Done => Saved(rows)
  }

  /** The loop of `run`: build the row of every result, numbered from 1, stopping at the first that was not built. */
  method CollectStations(historicalLocation: seq<Value>, api: Value -> Result<Value>) returns (collected: Result<seq<Row>>)
    ensures collected == CollectRows(BuildRows(historicalLocation, api))
  {
    ghost var built := BuildRows(historicalLocation, api);
    var stationsData: seq<Row> := [];
    var n := 1;
    while n <= |historicalLocation|
      invariant 1 <= n <= |historicalLocation| + 1
      invariant CollectRows(built[..n - 1]) == Ok(stationsData)
    {
      var row := BuildRow(historicalLocation[n - 1], api);
      assert row == built[n - 1];
      CollectRowsStep(built, n);
      if !Built(row) {
        CollectRowsStops(built, n);
        return Err(CrashError(row));
      }
      stationsData := stationsData + [Row(n, row.value.value)];
      n := n + 1;
    }
    assert built[..n - 1] == built;
    collected := Ok(stationsData);
  }

  /** `run`: fetch and format the historical list, collect one row per result, save the table. */
  method RunHistorical(fetched: Result<Value>, api: Value -> Result<Value>, save: seq<Row> -> Status)
    returns (outcome: HistoricalOutcome)
    ensures outcome == HistoricalRun(fetched, api, save)
  {
    if fetched.Err? {
      return Aborted(fetched.error);
    }
    var results := Subscript(fetched.value, Key("results"));
    if results.Err? {
      return Aborted(results.error);
    }
    var iterated := Iterate(results.value);
    if iterated.Err? {
      return Aborted(iterated.error);
    }
    var items := iterated.value;
    var formattedLocations := new Value[|items|](i requires 0 <= i < |items| => items[i]);
    assert formattedLocations[..] == items;
    var status := FormatHistoricalLocationsData(formattedLocations);
    if status.Failed? {
      return Aborted(status.error);
    }
    var collected := CollectStations(formattedLocations[..], api);
    if collected.Err? {
      return Crashed(collected.error);
    }
    var stationsData := collected.value;
    if stationsData == [] {
      return SaveFailed(ValueError);
    }
    var saved := save(stationsData);
    outcome := if saved.Done? then Saved(stationsData) else SaveFailed(saved.error);
  }

  /** The rows collected from formatted results: one per result, the n-th built from the n-th formatted result. */
  lemma CollectedRows(items: seq<Value>, api: Value -> Result<Value>)
    requires FormatAll(items).Ok?
    requires CollectRows(BuildRows(FormatAll(items).value, api)).Ok?
    ensures var rows := CollectRows(BuildRows(FormatAll(items).value, api)).value;
            |rows| == |items| &&
            forall i :: 0 <= i < |rows| ==>
              rows[i].index == i + 1 && FormatOne(items[i]).Ok? && BuildRow(FormatOne(items[i]).value, api) == Ok(Some(rows[i].cells))
  {
    FormatAllResults(items);
    CollectRowsNumbered(BuildRows(FormatAll(items).value, api));
  }

  /**
   * `run` saves one row per historical result, numbered from 1 and holding the
   * row `build_row` made from that formatted result, and only when
   * `results` was a non-empty list and every row was built; a failed fetch or
   * format aborts without building any row.  A `results` value that is not a
   * list is iterated as Python does: a non-empty dictionary or string yields
   * keys or characters, which cannot be subscripted by name, and anything else
   * cannot be iterated, so both abort with `TypeError`; an empty list,
   * dictionary or string builds no row and fails at concatenation.
   */
  lemma HistoricalRunSaves(fetched: Result<Value>, api: Value -> Result<Value>, save: seq<Row> -> Status)
    ensures fetched.Err? ==> HistoricalRun(fetched, api, save) == Aborted(fetched.error)
    ensures HistoricalRun(fetched, api, save).Saved? ==>
              var results := Subscript(fetched.value, Key("results")).value;
              var rows := HistoricalRun(fetched, api, save).rows;
              results.List? && save(rows) == Done && |rows| == |results.items| > 0 &&
              forall i :: 0 <= i < |rows| ==>
                rows[i].index == i + 1 && FormatOne(results.items[i]).Ok? &&
                BuildRow(FormatOne(results.items[i]).value, api) == Ok(Some(rows[i].cells))
    ensures fetched.Ok? && Subscript(fetched.value, Key("results")).Ok? ==>
              var results := Subscript(fetched.value, Key("results")).value;
              (Len(results) == Ok(0) ==> HistoricalRun(fetched, api, save) == SaveFailed(ValueError)) &&
              (!results.List? && Len(results) != Ok(0) ==> HistoricalRun(fetched, api, save) == Aborted(TypeError))
  {
    if fetched.Ok? && Subscript(fetched.value, Key("results")).Ok? {
      var results := Subscript(fetched.value, Key("results")).value;
      if Iterate(results).Ok? {
        var items := Iterate(results).value;
        FormatAllResults(items);
        if FormatAll(items).Ok? && CollectRows(BuildRows(FormatAll(items).value, api)).Ok? {
          CollectedRows(items, api);
        }
        if !results.List? && items != [] {
          assert FirstFormatFailure(items) == 0;
        }
      }
    }
  }
}
