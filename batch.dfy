/**
 * The Batch Runner of the observation writer: the `__main__` loop of
 * src/grafcan/files/write_last_observations.py (lines 101-142) together with
 * `read_stations_csv` (lines 33-46).  Reading the CSV file, fetching the last
 * observation of a station and writing points to InfluxDB are collaborators:
 * the parsed registry is an argument, and `fetch` and `write` are functions.
 */
module Batch {
  import opened Values
  import opened Text
  import opened Measurement
  import opened Sorting
  import opened Sanitizer
  import opened SanitizerFacts

  /** A registry row: its `things_id` index and `row.to_dict()`, the station metadata. */
  type StationRow = Keyed<Dict>

  /** One call of `client.write_points`. */
  datatype WriteCall = WriteCall(station: Option<real>, tags: Dict, points: seq<Dict>)

  /** What became of one station. */
  datatype StationOutcome =
    | Written(station: Option<real>)
    | FetchSkipped(station: Option<real>)              // `except DataFetchError`
    | OtherSkipped(station: Option<real>, error: Exc)   // `except Exception`

  /** The handler that catches `e` inside the loop: `except DataFetchError` first, then `except Exception`. */
  function Skipped(id: Option<real>, e: Exc): StationOutcome
  {
    if e == DataFetchError then FetchSkipped(id) else OtherSkipped(id, e)
  }

  /** The exception `normalize_text` raises on a location name that is not a string (`unidecode` encodes its argument). */
  const NonStringNameError: Exc := AttributeError

  /** `read_stations_csv`, after the file has been parsed: `set_index("things_id")` then `sort_index(inplace=True)`. */
  method ReadStationsCsv(table: seq<StationRow>) returns (stations: seq<StationRow>)
    ensures Sorted(stations)
    ensures multiset(stations) == multiset(table)
    ensures |stations| == |table|
  {
    var df := new StationRow[|table|](i requires 0 <= i < |table| => table[i]);
    assert df[..] == table;
    SortIndex(df);
    stations := df[..];
    assert |stations| == |multiset(stations)| == |multiset(table)| == |table|;
  }

  /** The sanitised points of a list run: the final entries of the kept points, in order. */
  function KeptEntries(r: ListRun): seq<Dict>
    requires |r.keep| == |r.finals|
  {
    Select(r.finals, r.keep)
  }

  /** The write of one station's sanitised points, tagged with its metadata. */
  function WriteStation(id: Option<real>, metadata: Dict, points: seq<Dict>,
                        write: (Dict, seq<Dict>) -> Status): (StationOutcome, Option<WriteCall>)
  {
    var call := WriteCall(id, metadata, points);
    match write(metadata, points)
    case Done => (Written(id), Some(call))
    case Failed(e) => (Skipped(id, e), Some(call))
  }

  /** The station's points stamped with its measurement name and sanitised, then written. */
  function SanitizeStation(id: Option<real>, metadata: Dict, observation: seq<Dict>, name: string,
                           write: (Dict, seq<Dict>) -> Status, unidecode: string -> string): (StationOutcome, Option<WriteCall>)
  {
    var run := SanitizeList(observation, NormalizeMeasurement(name, unidecode));
    if run.error.Some? then (OtherSkipped(id, run.error.value), None)
    else WriteStation(id, metadata, KeptEntries(run), write)
  }

  /** The body of the `try` block for one station: its outcome and the write call it made, if any. */
  function ProcessStation(row: StationRow, fetch: Option<real> -> Result<seq<Dict>>,
                          write: (Dict, seq<Dict>) -> Status, unidecode: string -> string): (StationOutcome, Option<WriteCall>)
  {
    match fetch(row.key)
    case Err(e) => (Skipped(row.key, e), None)
    case Ok(observation) =>
      match Lookup(row.row, "locations_name")
      case None => (OtherSkipped(row.key, KeyError), None)
      case Some(name) =>
        if !name.Str? then (OtherSkipped(row.key, NonStringNameError), None)
        else SanitizeStation(row.key, row.row, observation, name.s, write, unidecode)
  }

  /** The calls `write_points` received, in order, from the attempts of the stations one by one. */
  function Flatten(attempts: seq<Option<WriteCall>>): seq<WriteCall>
  {
    if attempts == [] then []
    else
      var last := attempts[|attempts| - 1];
      Flatten(attempts[..|attempts| - 1]) + (if last.Some? then [last.value] else [])
  }

  /** Fresh point objects holding the fetched dictionaries. */
  method NewPoints(es: seq<Dict>) returns (ps: seq<Point>)
    ensures |ps| == |es|
    ensures forall i :: 0 <= i < |ps| ==> fresh(ps[i]) && ps[i].entries == es[i]
    ensures forall i, j :: 0 <= i < j < |ps| ==> ps[i] != ps[j]
  {
    ps := [];
    while |ps| < |es|
      invariant |ps| <= |es|
      invariant forall i :: 0 <= i < |ps| ==> fresh(ps[i]) && ps[i].entries == es[i]
      invariant forall i, j :: 0 <= i < j < |ps| ==> ps[i] != ps[j]
    {
      var p := new Point(es[|ps|]);
      ps := ps + [p];
    }
  }

  /** The dictionaries the point objects now hold. */
  function EntriesNow(ps: seq<Point>): (es: seq<Dict>)
    reads set p | p in ps
    ensures |es| == |ps|
    ensures forall i :: 0 <= i < |ps| ==> es[i] == ps[i].entries
  {
    seq(|ps|, i reads set p | p in ps requires 0 <= i < |ps| => ps[i].entries)
  }

  /** Selecting point objects and then reading them is reading them and then selecting. */
  lemma {:induction false} SelectEntries(ps: seq<Point>, es: seq<Dict>, flags: seq<bool>, h: map<Point, Dict>)
    requires |es| == |ps| == |flags|
    requires forall i :: 0 <= i < |ps| ==> ps[i] in h && h[ps[i]] == es[i]
    ensures forall p :: p in Select(ps, flags) ==> p in h
    ensures EntriesOf(Select(ps, flags), h) == Select(es, flags)
  {
    if ps != [] {
      SelectEntries(ps[1..], es[1..], flags[1..], h);
      var rest := Select(ps[1..], flags[1..]);
      if flags[0] {
        assert Select(ps, flags) == [ps[0]] + rest;
        assert Select(es, flags) == [es[0]] + Select(es[1..], flags[1..]);
        assert EntriesOf(Select(ps, flags), h) == [es[0]] + EntriesOf(rest, h);
      } else {
        assert Select(ps, flags) == rest;
      }
    }
  }

  /**
   * For distinct fresh points, the run over the objects ends as the run over
   * their dictionaries: the same exception, and the kept objects hold the kept
   * final dictionaries.
   */
  lemma ObjectRunIsListRun(ps: seq<Point>, h: map<Point, Dict>, m: string)
    requires forall i :: 0 <= i < |ps| ==> ps[i] in h
    requires forall i, j :: 0 <= i < j < |ps| ==> ps[i] != ps[j]
    ensures var run, r := SanitizeRun(ps, h, m), SanitizeList(EntriesOf(ps, h), m);
            run.error == r.error &&
            (forall p :: p in run.kept ==> p in ps && p in run.heap) &&
            EntriesOf(run.kept, run.heap) == KeptEntries(r)
  {
    var run, r := SanitizeRun(ps, h, m), SanitizeList(EntriesOf(ps, h), m);
    SanitizeRunDistinct(ps, h, m);
    SelectEntries(ps, r.finals, r.keep, run.heap);
  }

  /** One pass of the loop: fetch, normalise, sanitise and write for one station, catching every exception. */
  method ProcessOne(row: StationRow, fetch: Option<real> -> Result<seq<Dict>>,
                    write: (Dict, seq<Dict>) -> Status, unidecode: string -> string)
    returns (outcome: StationOutcome, call: Option<WriteCall>)
    ensures (outcome, call) == ProcessStation(row, fetch, write, unidecode)
  {
    var index := row.key;
    var lastObservation := fetch(index);
    if lastObservation.Err? {
      outcome := Skipped(index, lastObservation.error);
      return outcome, None;
    }
    var stationMetadata := row.row;
    var name := Lookup(stationMetadata, "locations_name");
    if name.None? {
      return OtherSkipped(index, KeyError), None;
    }
    if !name.value.Str? {
      return OtherSkipped(index, NonStringNameError), None;
    }
    outcome, call := SanitizeAndWrite(index, stationMetadata, lastObservation.value, name.value.s, write, unidecode);
  }

  /** The rest of the `try` block, once the location name is known: sanitise the fetched points and write them. */
  method SanitizeAndWrite(index: Option<real>, stationMetadata: Dict, observation: seq<Dict>, name: string,
                          write: (Dict, seq<Dict>) -> Status, unidecode: string -> string)
    returns (outcome: StationOutcome, call: Option<WriteCall>)
    ensures (outcome, call) == SanitizeStation(index, stationMetadata, observation, name, write, unidecode)
  {
    var measurement := NormalizeMeasurement(name, unidecode);
    var points := NewPoints(observation);
    ghost var h := Snapshot(points);
    assert EntriesOf(points, h) == observation;
    ghost var run := SanitizeRun(points, h, measurement);
    ghost var listRun := SanitizeList(observation, measurement);
    var dataPoints := AddFeaturesToPoints(points, measurement);
    ObjectRunIsListRun(points, h, measurement);
    if dataPoints.Err? {
      return OtherSkipped(index, dataPoints.error), None;
    }
    var written := EntriesNow(dataPoints.value);
    EntriesNowOfSnapshot(dataPoints.value, points);
    assert written == KeptEntries(listRun);
    call := Some(WriteCall(index, stationMetadata, written));
    var status := write(stationMetadata, written);
    outcome := if status.Done? then Written(index) else Skipped(index, status.error);
  }

  /** Reading point objects of the list now is looking them up in the snapshot of the list. */
  lemma EntriesNowOfSnapshot(kept: seq<Point>, points: seq<Point>)
    requires forall p :: p in kept ==> p in points
    ensures forall i :: 0 <= i < |kept| ==> kept[i] in Snapshot(points)
    ensures EntriesNow(kept) == EntriesOf(kept, Snapshot(points))
  {
  }

  /** The `__main__` loop over the sorted registry: every station's outcome, and the write calls made in order. */
  method RunBatch(table: seq<StationRow>, fetch: Option<real> -> Result<seq<Dict>>,
                  write: (Dict, seq<Dict>) -> Status, unidecode: string -> string)
    returns (stations: seq<StationRow>, outcomes: seq<StationOutcome>, attempts: seq<Option<WriteCall>>, writes: seq<WriteCall>)
    ensures Sorted(stations) && multiset(stations) == multiset(table)
    ensures |outcomes| == |stations| && |attempts| == |stations|
    ensures forall i :: 0 <= i < |stations| ==> (outcomes[i], attempts[i]) == ProcessStation(stations[i], fetch, write, unidecode)
    ensures writes == Flatten(attempts)
    ensures forall i, j :: 0 <= i < j < |writes| ==> Before(writes[i].station, writes[j].station)
  {
    stations := ReadStationsCsv(table);
    outcomes, attempts, writes := [], [], [];
    var i := 0;
    while i < |stations|
      invariant 0 <= i <= |stations|
      invariant |outcomes| == i && |attempts| == i
      invariant forall k :: 0 <= k < i ==> (outcomes[k], attempts[k]) == ProcessStation(stations[k], fetch, write, unidecode)
      invariant writes == Flatten(attempts)
    {
      var outcome, call := ProcessOne(stations[i], fetch, write, unidecode);
      outcomes, attempts := outcomes + [outcome], attempts + [call];
      assert attempts[..i] == attempts[..|attempts| - 1];
      writes := writes + (if call.Some? then [call.value] else []);
      i := i + 1;
    }
    WritesInStationOrder(stations, attempts, fetch, write, unidecode);
  }

  /** The write calls of a run over sorted stations come in station order. */
  lemma WritesInStationOrder(stations: seq<StationRow>, attempts: seq<Option<WriteCall>>, fetch: Option<real> -> Result<seq<Dict>>,
                             write: (Dict, seq<Dict>) -> Status, unidecode: string -> string)
    requires Sorted(stations) && |attempts| == |stations|
    requires forall k :: 0 <= k < |stations| ==> attempts[k] == ProcessStation(stations[k], fetch, write, unidecode).1
    ensures var log := Flatten(attempts);
            forall i, j :: 0 <= i < j < |log| ==> Before(log[i].station, log[j].station)
  {
    forall k | 0 <= k < |attempts| && attempts[k].Some? ensures attempts[k].value.station == stations[k].key {
      StationOfCall(stations[k], fetch, write, unidecode);
    }
    FlattenOrdered(stations, attempts);
  }

  // ---------------------------------------------------------------------------
  // Properties of the batch

  /** A failed fetch skips the station without a write; only `DataFetchError` is reported as such. */
  lemma FetchFailureSkips(row: StationRow, fetch: Option<real> -> Result<seq<Dict>>,
                          write: (Dict, seq<Dict>) -> Status, unidecode: string -> string)
    requires fetch(row.key).Err?
    ensures ProcessStation(row, fetch, write, unidecode).1 == None
    ensures ProcessStation(row, fetch, write, unidecode).0 ==
              if fetch(row.key).error == DataFetchError then FetchSkipped(row.key)
              else OtherSkipped(row.key, fetch(row.key).error)
  {
  }

  /** A station without a string `locations_name` is skipped before sanitising, without a write. */
  lemma BadNameSkips(row: StationRow, fetch: Option<real> -> Result<seq<Dict>>,
                     write: (Dict, seq<Dict>) -> Status, unidecode: string -> string)
    requires fetch(row.key).Ok?
    requires Lookup(row.row, "locations_name").None? || !Lookup(row.row, "locations_name").value.Str?
    ensures ProcessStation(row, fetch, write, unidecode) ==
              (OtherSkipped(row.key, if Lookup(row.row, "locations_name").None? then KeyError else NonStringNameError), None)
  {
  }

  /**
   * Once the fetch succeeded and the location name is a string, `write_points` is
   * called exactly when the sanitiser returns normally, even when it kept no
   * point; the call carries the station metadata as tags and the points whose
   * `"fields"` map is non-empty, in their fetched order.
   */
  lemma WriteAttempted(id: Option<real>, metadata: Dict, observation: seq<Dict>, name: string,
                       write: (Dict, seq<Dict>) -> Status, unidecode: string -> string)
    ensures var run := SanitizeList(observation, NormalizeMeasurement(name, unidecode));
            var (outcome, call) := SanitizeStation(id, metadata, observation, name, write, unidecode);
            (call.Some? <==> run.error.None?) &&
            (run.error.Some? ==> outcome == OtherSkipped(id, run.error.value)) &&
            (run.error.None? ==> call == Some(WriteCall(id, metadata, Select(run.finals, run.keep))))
  {
    var run := SanitizeList(observation, NormalizeMeasurement(name, unidecode));
    if run.error.None? {
      WrittenMeansStored(id, metadata, KeptEntries(run), write);
    }
  }

  /**
   * A station is reported written exactly when its write call returned
   * normally; a failed write is reported with its error, under the
   * `DataFetchError` handler when that is the error it raised.
   */
  lemma WrittenMeansStored(id: Option<real>, metadata: Dict, points: seq<Dict>, write: (Dict, seq<Dict>) -> Status)
    ensures WriteStation(id, metadata, points, write).0.Written? <==> write(metadata, points) == Done
    ensures write(metadata, points).Failed? ==>
              WriteStation(id, metadata, points, write).0 ==
                if write(metadata, points).error == DataFetchError then FetchSkipped(id)
                else OtherSkipped(id, write(metadata, points).error)
    ensures WriteStation(id, metadata, points, write).1 == Some(WriteCall(id, metadata, points))
  {
  }

  /** Every outcome and every write call of a station names that station, and the call is tagged with its metadata. */
  lemma StationOfCall(row: StationRow, fetch: Option<real> -> Result<seq<Dict>>,
                      write: (Dict, seq<Dict>) -> Status, unidecode: string -> string)
    ensures ProcessStation(row, fetch, write, unidecode).0.station == row.key
    ensures var call := ProcessStation(row, fetch, write, unidecode).1;
            call.Some? ==> call.value.station == row.key && call.value.tags == row.row
  {
    if fetch(row.key).Ok? && Lookup(row.row, "locations_name").Some? && Lookup(row.row, "locations_name").value.Str? {
      var observation, name := fetch(row.key).value, Lookup(row.row, "locations_name").value.s;
      var run := SanitizeList(observation, NormalizeMeasurement(name, unidecode));
      if run.error.None? {
        WrittenMeansStored(row.key, row.row, KeptEntries(run), write);
      }
    }
  }

  /** The write calls follow the order of the attempts, so with a sorted registry the written ids ascend. */
  lemma {:induction false} FlattenOrdered(rows: seq<StationRow>, attempts: seq<Option<WriteCall>>)
    requires Sorted(rows) && |attempts| == |rows|
    requires forall k :: 0 <= k < |attempts| && attempts[k].Some? ==> attempts[k].value.station == rows[k].key
    ensures forall c :: c in Flatten(attempts) ==> exists k :: 0 <= k < |rows| && c.station == rows[k].key
    ensures |Flatten(attempts)| <= |attempts|
    ensures var log := Flatten(attempts);
            forall i, j :: 0 <= i < j < |log| ==> Before(log[i].station, log[j].station)
  {
    if attempts != [] {
      var n := |attempts| - 1;
      var init, initRows := attempts[..n], rows[..n];
      assert Sorted(initRows) by {
        forall i, j | 0 <= i < j < n ensures Before(initRows[i].key, initRows[j].key) {
          assert initRows[i] == rows[i] && initRows[j] == rows[j];
        }
      }
      forall k | 0 <= k < n && init[k].Some? ensures init[k].value.station == initRows[k].key {
        assert init[k] == attempts[k] && initRows[k] == rows[k];
      }
      FlattenOrdered(initRows, init);
      var prev, log := Flatten(init), Flatten(attempts);
      forall c | c in prev ensures Before(c.station, rows[n].key) && exists k :: 0 <= k < |rows| && c.station == rows[k].key {
        var k :| 0 <= k < n && c.station == initRows[k].key;
        assert initRows[k] == rows[k];
      }
      if attempts[n].Some? {
        assert log == prev + [attempts[n].value];
        forall i, j | 0 <= i < j < |log| ensures Before(log[i].station, log[j].station) {
          assert log[i] == prev[i] && log[i] in prev;
          if j < |prev| {
            assert log[j] == prev[j];
          }
        }
      } else {
        assert log == prev;
      }
    }
  }

  /**
   * A station whose last observation has one reading and one `None` reading
   * is skipped with `KeyError`, and nothing is written for it.
   */
  lemma NullReadingStationSkipped(row: StationRow, fetch: Option<real> -> Result<seq<Dict>>,
                                 write: (Dict, seq<Dict>) -> Status, unidecode: string -> string)
    requires fetch(row.key) == Ok([[Entry("fields", Object([Entry("temperature", Num(21.5)), Entry("humidity", Null)]))]])
    requires Lookup(row.row, "locations_name").Some? && Lookup(row.row, "locations_name").value.Str?
    ensures ProcessStation(row, fetch, write, unidecode) == (OtherSkipped(row.key, KeyError), None)
  {
    var m := NormalizeMeasurement(Lookup(row.row, "locations_name").value.s, unidecode);
    NullReadingPointRaises(m);
    var es := fetch(row.key).value;
    assert es[1..] == [];
  }
}
