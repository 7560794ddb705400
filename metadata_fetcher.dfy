/**
 * `StationMetadataFetcher`: reads the station (thing) documents of the Grafcan
 * API, fetches the first location document of every station, joins the two
 * tables row by row and saves the result.  The class exists twice in the
 * repository (`src/grafcan/classes/` and `src/grafcan/`) with the same logic
 * under private and public method names; this module models both.
 *
 * The HTTP request for a location document is the parameter `fetch`, the
 * routine that saves the joined table is `save`, and the transliteration
 * `unidecode` is the parameter `unidecode`.  `handle_error` is taken to
 * report and return; its reports are the `Report` values.
 */
module MetadataFetcher {
  import opened Values
  import opened Text
  import opened StationRecords
  import Sanitizer

  // ---------------------------------------------------------------------------
  // Text clean-up of the joined table

  /** `remove_special_characters(text)`: strings are transliterated and lose `ñ`/`Ñ`; anything else is returned as is. */
  function RemoveSpecialCharacters(v: Value, unidecode: string -> string): (r: Value)
    ensures !v.Str? ==> r == v
    ensures v.Str? ==> r.Str? && 'ñ' !in r.s && 'Ñ' !in r.s
    ensures v.Str? && IsAscii(unidecode(v.s)) ==> r == Str(unidecode(v.s))
  {
    if v.Str? then
      var u := unidecode(v.s);
      ReplaceCharRemoves(u, 'ñ', "n", 'Ñ');
      ReplaceCharRemoves(ReplaceChar(u, 'ñ', "n"), 'Ñ', "N", 'ñ');
      Str(NormalizeText(v.s, unidecode))
    else v
  }

  /** `applymap(remove_special_characters)` over one row of the table. */
  function NormalizeCells(d: Dict, unidecode: string -> string): (r: Dict)
    ensures |r| == |d|
    ensures forall i :: 0 <= i < |d| ==> r[i] == Entry(d[i].key, RemoveSpecialCharacters(d[i].val, unidecode))
  {
    seq(|d|, i requires 0 <= i < |d| => Entry(d[i].key, RemoveSpecialCharacters(d[i].val, unidecode)))
  }

  function NormalizeOption(o: Option<Value>, unidecode: string -> string): Option<Value>
  {
    match o
    case None => None
    case Some(v) => Some(RemoveSpecialCharacters(v, unidecode))
  }

  lemma {:induction false} LookupNormalizeCells(d: Dict, unidecode: string -> string, k: string)
    ensures Lookup(NormalizeCells(d, unidecode), k) == NormalizeOption(Lookup(d, k), unidecode)
  {
    if d != [] {
      assert NormalizeCells(d, unidecode)[1..] == NormalizeCells(d[1..], unidecode);
      LookupNormalizeCells(d[1..], unidecode, k);
    }
  }

  // ---------------------------------------------------------------------------
  // Reports made through `handle_error`

  datatype Report =
    | MissingKey(position: nat)       // a required key was missing in the station at this position
    | ManyLocations(position: nat)    // the station at this position has more than one location

  // ---------------------------------------------------------------------------
  // parse_things_data

  /** The state of the station loop: records so far, reports so far, and the exception that escaped, if any. */
  datatype Parse = Parse(rows: seq<Dict>, reports: seq<Report>, error: Option<Exc>)

  /** One iteration: the record is appended, or a `KeyError` is reported, or any other exception escapes. */
  function ThingsStep(p: Parse, n: nat, station: Value): Parse
  {
    if p.error.Some? then p
    else match ThingRecord(station)
      case Ok(rec) => p.(rows := p.rows + [rec])
      case Err(e) => if e == KeyError then p.(reports := p.reports + [MissingKey(n)]) else p.(error := Some(e))
  }

  /** The loop over the first `|stations|` stations. */
  function ParseThings(stations: seq<Value>): Parse
  {
    if stations == [] then Parse([], [], None)
    else ThingsStep(ParseThings(stations[..|stations| - 1]), |stations| - 1, stations[|stations| - 1])
  }

  /** A station the loop gets past: it gives a record or raises the `KeyError` the handler catches. */
  predicate Tolerated(station: Value)
  {
    ThingRecord(station).Ok? || ThingRecord(station) == Err(KeyError)
  }

  function RecordOrEmpty(station: Value): Dict
  {
    match ThingRecord(station)
    case Ok(rec) => rec
    case Err(_) => []
  }

  function Records(stations: seq<Value>): (r: seq<Dict>)
    ensures |r| == |stations|
  {
    seq(|stations|, i requires 0 <= i < |stations| => RecordOrEmpty(stations[i]))
  }

  function Parsed(stations: seq<Value>): (r: seq<bool>)
    ensures |r| == |stations|
  {
    seq(|stations|, i requires 0 <= i < |stations| => ThingRecord(stations[i]).Ok?)
  }

  /** Selecting from a sequence extended by one element. */
  lemma {:induction false} SelectSnoc<T>(s: seq<T>, flags: seq<bool>, x: T, b: bool)
    requires |flags| == |s|
    ensures Sanitizer.Select(s + [x], flags + [b]) == Sanitizer.Select(s, flags) + (if b then [x] else [])
  {
    if s == [] {
      assert s + [x] == [x] && flags + [b] == [b];
      assert [x][1..] == [] && [b][1..] == [];
    } else {
      assert (s + [x])[1..] == s[1..] + [x];
      assert (flags + [b])[1..] == flags[1..] + [b];
      SelectSnoc(s[1..], flags[1..], x, b);
    }
  }

  /** Once an exception has escaped, the later stations change nothing. */
  lemma {:induction false} ParseThingsStops(stations: seq<Value>, k: nat)
    requires 0 < k <= |stations|
    requires ParseThings(stations[..k]).error.Some?
    ensures ParseThings(stations) == ParseThings(stations[..k])
    decreases |stations| - k
  {
    if k < |stations| {
      assert stations[..k + 1][..k] == stations[..k];
      ParseThingsStops(stations, k + 1);
    } else {
      assert stations[..k] == stations;
    }
  }

  /**
   * No exception escapes the station loop exactly when every station is
   * tolerated; an exception that escapes is the one raised by the first
   * station that is not.
   */
  lemma {:induction false} ParseThingsEscapes(stations: seq<Value>)
    ensures var p := ParseThings(stations);
            (p.error.None? <==> forall i :: 0 <= i < |stations| ==> Tolerated(stations[i])) &&
            (p.error.Some? ==> exists i :: 0 <= i < |stations| && ThingRecord(stations[i]) == Err(p.error.value) &&
                                           !Tolerated(stations[i]) && forall j :: 0 <= j < i ==> Tolerated(stations[j]))
  {
    if stations != [] {
      var n := |stations| - 1;
      var init := stations[..n];
      ParseThingsEscapes(init);
      assert forall i :: 0 <= i < n ==> init[i] == stations[i];
    }
  }

  /** Without an escaped exception, the loop emits one record per station that gives one, in input order. */
  lemma {:induction false} ParseThingsRows(stations: seq<Value>)
    ensures var p := ParseThings(stations);
            p.error.None? ==> p.rows == Sanitizer.Select(Records(stations), Parsed(stations))
  {
    if stations != [] {
      var n := |stations| - 1;
      var init := stations[..n];
      ParseThingsRows(init);
      assert Records(stations) == Records(init) + [RecordOrEmpty(stations[n])];
      assert Parsed(stations) == Parsed(init) + [ThingRecord(stations[n]).Ok?];
      SelectSnoc(Records(init), Parsed(init), RecordOrEmpty(stations[n]), ThingRecord(stations[n]).Ok?);
    }
  }

  /**
   * Every report names a station whose record raised `KeyError`; without an
   * escaped exception, every such station is reported.
   */
  lemma {:induction false} ParseThingsReports(stations: seq<Value>)
    ensures var p := ParseThings(stations);
            (forall r :: r in p.reports ==> r.MissingKey? && r.position < |stations| &&
                                            ThingRecord(stations[r.position]) == Err(KeyError)) &&
            (p.error.None? ==> forall i :: 0 <= i < |stations| && ThingRecord(stations[i]) == Err(KeyError) ==>
                                        MissingKey(i) in p.reports)
  {
    if stations != [] {
      var n := |stations| - 1;
      var init := stations[..n];
      ParseThingsReports(init);
      assert forall i :: 0 <= i < n ==> init[i] == stations[i];
    }
  }

  /** A station stops the loop exactly when it is not a dictionary or its `properties` has no `.get`. */
  lemma ThingCrash(station: Value)
    ensures !Tolerated(station) <==>
              !station.Object? ||
              (HasKey(station.entries, "id") && HasKey(station.entries, "name") && HasKey(station.entries, "description") &&
               HasKey(station.entries, "properties") && !Get(station.entries, "properties").Object?)
    ensures !Tolerated(station) ==> ThingRecord(station).error == if station.Object? then AttributeError else TypeError
  {
    if station.Object? {
      ThingRecordFields(station.entries);
    }
  }

  /** Every record the loop emits has the eight record keys, `location_set` among them. */
  lemma {:induction false} ParseThingsKeys(stations: seq<Value>)
    ensures forall r :: r in ParseThings(stations).rows ==> Keys(r) == ThingKeys && HasKey(r, "location_set")
  {
    if stations != [] {
      ParseThingsKeys(stations[..|stations| - 1]);
    }
    forall r | r in ParseThings(stations).rows ensures HasKey(r, "location_set") {
      KeysHasKey(r, "location_set");
    }
  }

  /** `parse_things_data(stations)`: the records of the stations, or the exception that escaped the loop. */
  method ParseThingsData(stations: seq<Value>) returns (things: Result<seq<Dict>>, reports: seq<Report>)
    ensures var p := ParseThings(stations);
            reports == p.reports && things == (if p.error.Some? then Err(p.error.value) else Ok(p.rows))
  {
    var parsedStations: seq<Dict> := [];
    reports := [];
    var i := 0;
    while i < |stations|
      invariant 0 <= i <= |stations|
      invariant ParseThings(stations[..i]) == Parse(parsedStations, reports, None)
    {
      assert stations[..i + 1][..i] == stations[..i];
      match ThingRecord(stations[i]) {
        case Ok(stationData) =>
          parsedStations := parsedStations + [stationData];
        case Err(e) =>
          if e == KeyError {
            reports := reports + [MissingKey(i)];
          } else {
            ParseThingsStops(stations, i + 1);
            things := Err(e);
            return;
          }
      }
      i := i + 1;
    }
    assert stations[..i] == stations;
    things := Ok(parsedStations);
  }

  // ---------------------------------------------------------------------------
  // parse_locations_data

  /**
   * The state of the location loop.  `last` is the variable `location_data`,
   * which keeps the document of an earlier iteration until a new one is
   * fetched and is unbound before the first fetch.
   */
  datatype LocationParse = LocationParse(rows: seq<Dict>, reports: seq<Report>, last: Option<Value>, error: Option<Exc>)

  /** The `except KeyError` handler, which reads `location_data.get('id')` for its message. */
  function Handle(p: LocationParse, n: nat, e: Exc): LocationParse
  {
    if e != KeyError then p.(error := Some(e))
    else match p.last
      case None => p.(error := Some(NameError))
      case Some(d) => if d.Object? then p.(reports := p.reports + [MissingKey(n)]) else p.(error := Some(AttributeError))
  }

  /** One iteration over the thing row at position `n`: `len(row["location_set"])`, then the `try` block. */
  function LocationStep(p: LocationParse, n: nat, row: Dict, fetch: Value -> Result<Value>): LocationParse
  {
    if p.error.Some? then p
    else match Lookup(row, "location_set")
      case None => p.(error := Some(KeyError))
      case Some(locationSet) =>
        match Len(locationSet)
        case Err(e) => p.(error := Some(e))
        case Ok(count) =>
          TryFirst(if count > 1 then p.(reports := p.reports + [ManyLocations(n)]) else p, n, locationSet, fetch)
  }

  /** The `try` block: fetch the document named by `location_set[0]` and project it. */
  function TryFirst(q: LocationParse, n: nat, locationSet: Value, fetch: Value -> Result<Value>): LocationParse
  {
    match Subscript(locationSet, Pos(0))
    case Err(e) => Handle(q, n, e)
    case Ok(url) =>
      match fetch(url)
      case Err(e) => Handle(q, n, e)
      case Ok(data) => Project(q.(last := Some(data)), n, data)
  }

  /** The location record literal, appended to the table. */
  function Project(r: LocationParse, n: nat, data: Value): LocationParse
  {
    match LocationRecord(data)
    case Err(e) => Handle(r, n, e)
    case Ok(rec) => r.(rows := r.rows + [rec])
  }

  /** The loop over the first `|things|` thing rows. */
  function ParseLocations(things: seq<Dict>, fetch: Value -> Result<Value>): LocationParse
  {
    if things == [] then LocationParse([], [], None, None)
    else LocationStep(ParseLocations(things[..|things| - 1], fetch), |things| - 1, things[|things| - 1], fetch)
  }

  /** The location record of a thing row: the first entry of `location_set`, fetched and projected. */
  function FirstLocation(row: Dict, fetch: Value -> Result<Value>): Option<Dict>
  {
    match Lookup(row, "location_set")
    case None => None
    case Some(locationSet) =>
      match Subscript(locationSet, Pos(0))
      case Err(_) => None
      case Ok(url) =>
        match fetch(url)
        case Err(_) => None
        case Ok(data) =>
          match LocationRecord(data)
          case Err(_) => None
          case Ok(rec) => Some(rec)
  }

  /** The first location record of a row, or an empty placeholder the selection drops. */
  function LocationOrEmpty(row: Dict, fetch: Value -> Result<Value>): Dict
  {
    match FirstLocation(row, fetch) case Some(rec) => rec case None => []
  }

  function FirstLocations(things: seq<Dict>, fetch: Value -> Result<Value>): (r: seq<Dict>)
    ensures |r| == |things|
  {
    seq(|things|, i requires 0 <= i < |things| => LocationOrEmpty(things[i], fetch))
  }

  function Located(things: seq<Dict>, fetch: Value -> Result<Value>): (r: seq<bool>)
    ensures |r| == |things|
  {
    seq(|things|, i requires 0 <= i < |things| => FirstLocation(things[i], fetch).Some?)
  }

  /**
   * One iteration always reads `location_set[0]`: a record is appended exactly
   * when that entry is fetched and projected, whatever the length of the list.
   * A list of more than one entry is reported first; an empty list raises
   * `IndexError`.
   */
  lemma LocationStepFirst(p: LocationParse, n: nat, row: Dict, fetch: Value -> Result<Value>)
    requires p.error.None?
    ensures var q := LocationStep(p, n, row, fetch);
            (q.error.None? && FirstLocation(row, fetch).Some? ==> q.rows == p.rows + [FirstLocation(row, fetch).value]) &&
            (q.error.None? && FirstLocation(row, fetch).None? ==> q.rows == p.rows) &&
            (Lookup(row, "location_set").Some? && Lookup(row, "location_set").value.List? ==>
               var xs := Lookup(row, "location_set").value.items;
               (|xs| > 1 ==> |q.reports| > |p.reports| && q.reports[|p.reports|] == ManyLocations(n)) &&
               (xs == [] ==> q.error == Some(IndexError)) &&
               (xs != [] && fetch(xs[0]).Ok? && LocationRecord(fetch(xs[0]).value).Ok? ==>
                  q.error.None? && q.rows == p.rows + [LocationRecord(fetch(xs[0]).value).value]))
  {
  }

  /** Once an exception has escaped, the later rows change nothing. */
  lemma {:induction false} ParseLocationsStops(things: seq<Dict>, fetch: Value -> Result<Value>, k: nat)
    requires 0 < k <= |things|
    requires ParseLocations(things[..k], fetch).error.Some?
    ensures ParseLocations(things, fetch) == ParseLocations(things[..k], fetch)
    decreases |things| - k
  {
    if k < |things| {
      assert things[..k + 1][..k] == things[..k];
      ParseLocationsStops(things, fetch, k + 1);
    } else {
      assert things[..k] == things;
    }
  }

  /** An iteration only appends to the reports. */
  lemma LocationStepReports(p: LocationParse, n: nat, row: Dict, fetch: Value -> Result<Value>)
    ensures var q := LocationStep(p, n, row, fetch);
            |p.reports| <= |q.reports| && q.reports[..|p.reports|] == p.reports
  {
  }

  /**
   * When no exception escapes, the location table holds the first location of
   * every thing row that has one, in row order, so it can be shorter than the
   * thing table.
   */
  lemma {:induction false} ParseLocationsRows(things: seq<Dict>, fetch: Value -> Result<Value>)
    ensures var p := ParseLocations(things, fetch);
            p.error.None? ==> p.rows == Sanitizer.Select(FirstLocations(things, fetch), Located(things, fetch)) &&
                              |p.rows| <= |things|
  {
    if things != [] {
      var n := |things| - 1;
      var init := things[..n];
      ParseLocationsRows(init, fetch);
      var p := ParseLocations(init, fetch);
      if ParseLocations(things, fetch).error.None? {
        LocationStepRows(p, n, things[n], fetch);
        FirstLocationsSnoc(things, fetch);
        SelectSnoc(FirstLocations(init, fetch), Located(init, fetch), LocationOrEmpty(things[n], fetch),
                   FirstLocation(things[n], fetch).Some?);
      }
    }
  }

  /** The row an iteration appends is the first location of its thing row, if it has one. */
  lemma LocationStepRows(p: LocationParse, n: nat, row: Dict, fetch: Value -> Result<Value>)
    requires p.error.None?
    ensures var q := LocationStep(p, n, row, fetch);
            var first := FirstLocation(row, fetch);
            q.error.None? ==> q.rows == p.rows + if first.Some? then [first.value] else []
  {
    LocationStepFirst(p, n, row, fetch);
  }

  lemma FirstLocationsSnoc(things: seq<Dict>, fetch: Value -> Result<Value>)
    requires things != []
    ensures var n := |things| - 1;
            FirstLocations(things, fetch) == FirstLocations(things[..n], fetch) + [LocationOrEmpty(things[n], fetch)] &&
            Located(things, fetch) == Located(things[..n], fetch) + [FirstLocation(things[n], fetch).Some?]
  {
    var n := |things| - 1;
    var init := things[..n];
    var a, b := FirstLocations(things, fetch), FirstLocations(init, fetch) + [LocationOrEmpty(things[n], fetch)];
    var c, d := Located(things, fetch), Located(init, fetch) + [FirstLocation(things[n], fetch).Some?];
    forall i | 0 <= i < |things| ensures a[i] == b[i] && c[i] == d[i] {
      if i < n {
        assert init[i] == things[i];
      }
    }
    assert a == b && c == d;
  }

  /** Without an escaped exception, every thing row with more than one location is reported. */
  lemma {:induction false} ParseLocationsReports(things: seq<Dict>, fetch: Value -> Result<Value>)
    ensures var p := ParseLocations(things, fetch);
            p.error.None? ==> forall i :: 0 <= i < |things| && Many(things[i]) ==> ManyLocations(i) in p.reports
  {
    if things != [] {
      var n := |things| - 1;
      var init := things[..n];
      ParseLocationsReports(init, fetch);
      var p := ParseLocations(init, fetch);
      var q := ParseLocations(things, fetch);
      assert q == LocationStep(p, n, things[n], fetch);
      if q.error.None? {
        LocationStepMany(p, n, things[n], fetch);
        LocationStepKeeps(p, n, things[n], fetch);
        ManyReported(things, p.reports, q.reports);
      }
    }
  }

  /** The reports of the rows before the last, carried over, and the last row's own report cover every row. */
  lemma ManyReported(things: seq<Dict>, before: seq<Report>, after: seq<Report>)
    requires things != []
    requires forall i :: 0 <= i < |things| - 1 && Many(things[..|things| - 1][i]) ==> ManyLocations(i) in before
    requires forall r :: r in before ==> r in after
    requires Many(things[|things| - 1]) ==> ManyLocations(|things| - 1) in after
    ensures forall i :: 0 <= i < |things| && Many(things[i]) ==> ManyLocations(i) in after
  {
    var n := |things| - 1;
    forall i | 0 <= i < |things| && Many(things[i]) ensures ManyLocations(i) in after {
      if i < n {
        assert things[..n][i] == things[i];
      }
    }
  }

  /** An iteration never withdraws a report. */
  lemma LocationStepKeeps(p: LocationParse, n: nat, row: Dict, fetch: Value -> Result<Value>)
    ensures forall r :: r in p.reports ==> r in LocationStep(p, n, row, fetch).reports
  {
    var q := LocationStep(p, n, row, fetch);
    LocationStepReports(p, n, row, fetch);
    forall r | r in p.reports ensures r in q.reports {
      var j :| 0 <= j < |p.reports| && p.reports[j] == r;
      assert q.reports[..|p.reports|][j] == r;
    }
  }

  /** The thing row's `location_set` is a list of more than one entry. */
  predicate Many(row: Dict)
  {
    Lookup(row, "location_set").Some? && Lookup(row, "location_set").value.List? &&
    |Lookup(row, "location_set").value.items| > 1
  }

  /** An iteration over a row with several locations reports it, unless an exception escapes. */
  lemma LocationStepMany(p: LocationParse, n: nat, row: Dict, fetch: Value -> Result<Value>)
    requires p.error.None?
    ensures var q := LocationStep(p, n, row, fetch);
            q.error.None? && Many(row) ==> ManyLocations(n) in q.reports
  {
    LocationStepFirst(p, n, row, fetch);
  }

  /** A dictionary `location_set` in the first row raises `NameError`: its `KeyError` reaches the handler before any document was fetched. */
  lemma UnboundLocationData(fetch: Value -> Result<Value>)
    ensures ParseLocations([[Entry("location_set", Object([]))]], fetch).error == Some(NameError)
  {
    assert [[Entry("location_set", Object([]))]][..0] == [];
  }

  /** `parse_locations_data(df_stations)`: the location records, or the exception that escaped the loop. */
  method ParseLocationsData(things: seq<Dict>, fetch: Value -> Result<Value>) returns (locations: Result<seq<Dict>>, reports: seq<Report>)
    ensures var p := ParseLocations(things, fetch);
            reports == p.reports && locations == (if p.error.Some? then Err(p.error.value) else Ok(p.rows))
  {
    var parseLocations: seq<Dict> := [];
    var locationData: Option<Value> := None;
    reports := [];
    var i := 0;
    while i < |things|
      invariant 0 <= i <= |things|
      invariant ParseLocations(things[..i], fetch) == LocationParse(parseLocations, reports, locationData, None)
    {
      assert things[..i + 1][..i] == things[..i];
      var row := things[i];
      var escaped: Option<Exc> := None;
      var caught := false;
      match Lookup(row, "location_set") {
        case None =>
          escaped := Some(KeyError);
        case Some(locationSet) =>
          match Len(locationSet) {
            case Err(e) =>
              escaped := Some(e);
            case Ok(count) =>
              if count > 1 {
                reports := reports + [ManyLocations(i)];
              }
              match Subscript(locationSet, Pos(0)) {
                case Err(e) =>
                  if e == KeyError { caught := true; } else { escaped := Some(e); }
                case Ok(locationUrl) =>
                  match fetch(locationUrl) {
                    case Err(e) =>
                      if e == KeyError { caught := true; } else { escaped := Some(e); }
                    case Ok(data) =>
                      locationData := Some(data);
                      match LocationRecord(data) {
                        case Err(e) =>
                          if e == KeyError { caught := true; } else { escaped := Some(e); }
                        case Ok(metadataLocation) =>
                          parseLocations := parseLocations + [metadataLocation];
                      }
                  }
              }
          }
      }
      if caught {
        match locationData {
          case None =>
            escaped := Some(NameError);
          case Some(d) =>
            if d.Object? {
              reports := reports + [MissingKey(i)];
            } else {
              escaped := Some(AttributeError);
            }
        }
      }
      if escaped.Some? {
        ParseLocationsStops(things, fetch, i + 1);
        locations := Err(escaped.value);
        return;
      }
      i := i + 1;
    }
    assert things[..i] == things;
    locations := Ok(parseLocations);
  }

  // ---------------------------------------------------------------------------
  // merge_dataframes

  /** One joined row before the clean-up: the prefixed thing columns, then the prefixed location columns, without `things_location_set`. */
  function JoinedRow(thing: Dict, location: Dict): Dict
  {
    Remove(AddPrefix("things_", thing) + AddPrefix("locations_", location), "things_location_set")
  }

  /** Some row of the table has column `k`, so the frame has that column. */
  predicate HasColumn(rows: seq<Dict>, k: string)
  {
    exists i :: 0 <= i < |rows| && HasKey(rows[i], k)
  }

  function Min(a: nat, b: nat): nat
  {
    if a < b then a else b
  }

  /** The joined and cleaned table; dropping a column the frame does not have raises `KeyError`. */
  function Merged(things: seq<Dict>, locations: seq<Dict>, unidecode: string -> string): Result<seq<Dict>>
  {
    if !HasColumn(things, "location_set") then Err(KeyError)
    else Ok(seq(Min(|things|, |locations|), k requires 0 <= k < Min(|things|, |locations|) =>
              NormalizeCells(JoinedRow(things[k], locations[k]), unidecode)))
  }

  lemma PrefixSplit(p: string, k: string)
    ensures |p| <= |p + k| && (p + k)[..|p|] == p && (p + k)[|p|..] == k
  {
  }

  /** A column name never carries both prefixes. */
  lemma PrefixesDiffer(k: string)
    ensures |"things_" + k| < 10 || ("things_" + k)[..10] != "locations_"
    ensures ("locations_" + k)[..7] != "things_"
    ensures "locations_" + k != "things_location_set"
  {
    assert ("things_" + k)[0] == 't';
    assert ("locations_" + k)[0] == 'l';
    assert "things_location_set"[0] == 't';
  }

  lemma PrefixInjective(p: string, a: string, b: string)
    ensures p + a == p + b <==> a == b
  {
    if p + a == p + b {
      PrefixSplit(p, a);
      PrefixSplit(p, b);
    }
  }

  /** The dropped column is the prefixed `location_set` and no other prefixed column. */
  lemma DroppedColumn(k: string)
    ensures "things_" + k == "things_location_set" <==> k == "location_set"
  {
    assert "things_location_set" == "things_" + "location_set";
    PrefixInjective("things_", k, "location_set");
  }

  /** A joined row answers every column but `things_location_set` as the concatenated prefixed rows do. */
  lemma JoinedLookup(thing: Dict, location: Dict, c: string)
    ensures Lookup(JoinedRow(thing, location), c) ==
              if c == "things_location_set" then None
              else Lookup(AddPrefix("things_", thing) + AddPrefix("locations_", location), c)
  {
    RemoveProperties(AddPrefix("things_", thing) + AddPrefix("locations_", location), "things_location_set");
  }

  /** The concatenated prefixed rows answer `things_<k>` from the thing. */
  lemma ThingPrefixLookup(thing: Dict, location: Dict, k: string)
    ensures Lookup(AddPrefix("things_", thing) + AddPrefix("locations_", location), "things_" + k) == Lookup(thing, k)
  {
    var a := AddPrefix("things_", thing);
    var b := AddPrefix("locations_", location);
    var c := "things_" + k;
    PrefixSplit("things_", k);
    LookupAddPrefix("things_", thing, c);
    PrefixesDiffer(k);
    LookupAddPrefix("locations_", location, c);
    LookupAppend(a, b, c);
  }

  /** The concatenated prefixed rows answer `locations_<k>` from the location record. */
  lemma LocationPrefixLookup(thing: Dict, location: Dict, k: string)
    ensures Lookup(AddPrefix("things_", thing) + AddPrefix("locations_", location), "locations_" + k) == Lookup(location, k)
  {
    var a := AddPrefix("things_", thing);
    var b := AddPrefix("locations_", location);
    var c := "locations_" + k;
    PrefixSplit("locations_", k);
    PrefixesDiffer(k);
    LookupAddPrefix("things_", thing, c);
    LookupAddPrefix("locations_", location, c);
    LookupAppend(a, b, c);
  }

  /** A joined row answers `things_<k>` with the thing's cleaned `k`, and has no `things_location_set`. */
  lemma MergedThingColumn(thing: Dict, location: Dict, unidecode: string -> string, k: string)
    ensures Lookup(NormalizeCells(JoinedRow(thing, location), unidecode), "things_" + k) ==
              if k == "location_set" then None else NormalizeOption(Lookup(thing, k), unidecode)
  {
    ThingPrefixLookup(thing, location, k);
    JoinedLookup(thing, location, "things_" + k);
    DroppedColumn(k);
    LookupNormalizeCells(JoinedRow(thing, location), unidecode, "things_" + k);
  }

  /** A joined row answers `locations_<k>` with the location's cleaned `k`. */
  lemma MergedLocationColumn(thing: Dict, location: Dict, unidecode: string -> string, k: string)
    ensures Lookup(NormalizeCells(JoinedRow(thing, location), unidecode), "locations_" + k) ==
              NormalizeOption(Lookup(location, k), unidecode)
  {
    LocationPrefixLookup(thing, location, k);
    PrefixesDiffer(k);
    JoinedLookup(thing, location, "locations_" + k);
    LookupNormalizeCells(JoinedRow(thing, location), unidecode, "locations_" + k);
  }

  /** A joined row has no column without the `things_` or `locations_` prefix. */
  lemma MergedOtherColumn(thing: Dict, location: Dict, unidecode: string -> string, c: string)
    requires |c| < 7 || c[..7] != "things_"
    requires |c| < 10 || c[..10] != "locations_"
    ensures Lookup(NormalizeCells(JoinedRow(thing, location), unidecode), c) == None
  {
    var a := AddPrefix("things_", thing);
    var b := AddPrefix("locations_", location);
    LookupAddPrefix("things_", thing, c);
    LookupAddPrefix("locations_", location, c);
    LookupAppend(a, b, c);
    JoinedLookup(thing, location, c);
    LookupNormalizeCells(JoinedRow(thing, location), unidecode, c);
  }

  /**
   * The join is positional: the table has as many rows as the shorter input,
   * and row `k` holds the cleaned columns of the `k`-th thing and of the `k`-th
   * location record, whichever station that record came from.  The drop fails
   * exactly when no thing row has `location_set`.
   */
  lemma MergedPositional(things: seq<Dict>, locations: seq<Dict>, unidecode: string -> string)
    ensures Merged(things, locations, unidecode).Err? <==> !HasColumn(things, "location_set")
    ensures var m := Merged(things, locations, unidecode);
            m.Ok? ==> |m.value| == Min(|things|, |locations|) &&
                      forall k, key :: 0 <= k < |m.value| ==>
                        Lookup(m.value[k], "things_" + key) ==
                          (if key == "location_set" then None else NormalizeOption(Lookup(things[k], key), unidecode)) &&
                        Lookup(m.value[k], "locations_" + key) == NormalizeOption(Lookup(locations[k], key), unidecode)
  {
    var m := Merged(things, locations, unidecode);
    if m.Ok? {
      forall k, key | 0 <= k < |m.value|
        ensures Lookup(m.value[k], "things_" + key) ==
                  (if key == "location_set" then None else NormalizeOption(Lookup(things[k], key), unidecode))
        ensures Lookup(m.value[k], "locations_" + key) == NormalizeOption(Lookup(locations[k], key), unidecode)
      {
        MergedThingColumn(things[k], locations[k], unidecode, key);
        MergedLocationColumn(things[k], locations[k], unidecode, key);
      }
    }
  }

  /** `pd.merge(df_things, df_locations, left_index=True, right_index=True)` on the prefixed tables: a new frame. */
  method JoinOnIndex(things: seq<Dict>, locations: seq<Dict>) returns (frame: array<Dict>)
    ensures fresh(frame)
    ensures frame.Length == Min(|things|, |locations|)
    ensures forall j :: 0 <= j < frame.Length ==>
              frame[j] == AddPrefix("things_", things[j]) + AddPrefix("locations_", locations[j])
  {
    var n := Min(|things|, |locations|);
    frame := new Dict[n];
    for k := 0 to n
      invariant forall j :: 0 <= j < k ==> frame[j] == AddPrefix("things_", things[j]) + AddPrefix("locations_", locations[j])
    {
      frame[k] := AddPrefix("things_", things[k]) + AddPrefix("locations_", locations[k]);
    }
  }

  /** Whether some row has column `k`, row by row. */
  method FindColumn(rows: seq<Dict>, k: string) returns (found: bool)
    ensures found <==> HasColumn(rows, k)
  {
    var i := 0;
    while i < |rows|
      invariant 0 <= i <= |rows|
      invariant forall j :: 0 <= j < i ==> !HasKey(rows[j], k)
    {
      if HasKey(rows[i], k) {
        return true;
      }
      i := i + 1;
    }
    return false;
  }

  /** `drop(key, axis=1, inplace=True)`: the column leaves every row of the frame. */
  method DropColumn(frame: array<Dict>, key: string)
    modifies frame
    ensures forall j :: 0 <= j < frame.Length ==> frame[j] == Remove(old(frame[j]), key)
  {
    for k := 0 to frame.Length
      invariant forall j :: 0 <= j < k ==> frame[j] == Remove(old(frame[j]), key)
      invariant forall j :: k <= j < frame.Length ==> frame[j] == old(frame[j])
    {
      frame[k] := Remove(frame[k], key);
    }
  }

  /** The `applymap` of `_remove_special_characters` over the frame, in place. */
  method NormalizeFrame(frame: array<Dict>, unidecode: string -> string)
    modifies frame
    ensures forall j :: 0 <= j < frame.Length ==> frame[j] == NormalizeCells(old(frame[j]), unidecode)
  {
    for k := 0 to frame.Length
      invariant forall j :: 0 <= j < k ==> frame[j] == NormalizeCells(old(frame[j]), unidecode)
      invariant forall j :: k <= j < frame.Length ==> frame[j] == old(frame[j])
    {
      frame[k] := NormalizeCells(frame[k], unidecode);
    }
  }

  /**
   * `merge_dataframes(df_things, df_locations)`: a positional inner join (row
   * `k` pairs the `k`-th thing with the `k`-th location record), an in-place
   * drop of `things_location_set`, and the clean-up of every cell.
   */
  method MergeDataframes(things: seq<Dict>, locations: seq<Dict>, unidecode: string -> string) returns (merged: Result<seq<Dict>>)
    ensures merged == Merged(things, locations, unidecode)
  {
    var n := Min(|things|, |locations|);
    var frame := JoinOnIndex(things, locations);
    ghost var dropped := seq(n, j requires 0 <= j < n => JoinedRow(things[j], locations[j]));
    var found := FindColumn(things, "location_set");
    if !found {
      merged := Err(KeyError);
      return;
    }
    DropColumn(frame, "things_location_set");
    assert forall j :: 0 <= j < n ==> frame[j] == dropped[j];
    NormalizeFrame(frame, unidecode);
    assert frame[..] == Merged(things, locations, unidecode).value;
    merged := Ok(frame[..]);
  }

  // ---------------------------------------------------------------------------
  // run

  datatype MetadataOutcome =
    | NoStations                 // the station request failed
    | NoThings                   // no station gave a record
    | NoLocations                // no location record was obtained
    | Crashed(error: Exc)        // an exception escaped a parse or the merge
    | SaveFailed(error: Exc)     // the table was handed to the save routine, which raised
    | Saved(table: seq<Dict>)    // the table was saved

  /** `run()` with the station list already fetched (`None` when the request failed). */
  function MetadataRun(stations: Option<seq<Value>>, fetch: Value -> Result<Value>, unidecode: string -> string,
                       save: seq<Dict> -> Status): MetadataOutcome
  {
    match stations
    case None => NoStations
    case Some(ss) =>
      var things := ParseThings(ss);
      if things.error.Some? then Crashed(things.error.value)
      else if things.rows == [] then NoThings
      else
        var locations := ParseLocations(things.rows, fetch);
        if locations.error.Some? then Crashed(locations.error.value)
        else if locations.rows == [] then NoLocations
        else match Merged(things.rows, locations.rows, unidecode)
          case Err(e) => Crashed(e)
          case Ok(table) =>
            match save(table)
            case Failed(e) => SaveFailed(e)
            case Done => Saved(table)
  }

  /**
   * `run` reaches the save routine exactly when the station request succeeded
   * and both parsed tables are non-empty; the merge itself never fails then,
   * because every station record carries `location_set`.  A saved table has
   * one row per parsed location, up to the number of stations.
   */
  lemma MetadataRunSaves(stations: Option<seq<Value>>, fetch: Value -> Result<Value>, unidecode: string -> string,
                         save: seq<Dict> -> Status)
    ensures var out := MetadataRun(stations, fetch, unidecode, save);
            (out == NoStations <==> stations.None?) &&
            ((out.Saved? || out.SaveFailed?) <==>
               stations.Some? && ParseThings(stations.value).error.None? && ParseThings(stations.value).rows != [] &&
               ParseLocations(ParseThings(stations.value).rows, fetch).error.None? &&
               ParseLocations(ParseThings(stations.value).rows, fetch).rows != []) &&
            (out.Saved? ==> 0 < |out.table| == |ParseLocations(ParseThings(stations.value).rows, fetch).rows| <=
                                              |ParseThings(stations.value).rows| &&
                            save(out.table) == Done)
  {
    if stations.Some? {
      var things := ParseThings(stations.value);
      ParseThingsKeys(stations.value);
      if things.error.None? && things.rows != [] {
        assert things.rows[0] in things.rows;
        assert HasColumn(things.rows, "location_set");
        ParseLocationsRows(things.rows, fetch);
      }
    }
  }

  /** `run()`: parse the stations, fetch their locations, join, save, stopping at the first empty step. */
  method RunMetadata(stations: Option<seq<Value>>, fetch: Value -> Result<Value>, unidecode: string -> string,
                     save: seq<Dict> -> Status) returns (outcome: MetadataOutcome, reports: seq<Report>)
    ensures outcome == MetadataRun(stations, fetch, unidecode, save)
  {
    reports := [];
    if stations.None? {
      return NoStations, reports;
    }
    var dfStations, thingReports := ParseThingsData(stations.value);
    reports := thingReports;
    if dfStations.Err? {
      return Crashed(dfStations.error), reports;
    }
    if dfStations.value == [] {
      return NoThings, reports;
    }
    var dfLocations, locationReports := ParseLocationsData(dfStations.value, fetch);
    reports := reports + locationReports;
    if dfLocations.Err? {
      return Crashed(dfLocations.error), reports;
    }
    if dfLocations.value == [] {
      return NoLocations, reports;
    }
    var dfMerged := MergeDataframes(dfStations.value, dfLocations.value, unidecode);
    if dfMerged.Err? {
      return Crashed(dfMerged.error), reports;
    }
    match save(dfMerged.value)
    case Failed(e) =>
      outcome := SaveFailed(e);
    case Done =>
      outcome := Saved(dfMerged.value);
  }
}
