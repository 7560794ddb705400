/**
 * `get_urls_of_stations.py`: the station list of the Grafcan API projected into
 * station records and indexed by station id.  The request is made by a
 * utility class that is not part of this model; its answer is the parameter
 * `stations`.  The projection loop is the one of `StationMetadataFetcher`.
 */
module UrlsOfStations {
  import opened Values
  import opened StationRecords
  import MetadataFetcher

  /** The station list handed on, and whether the empty-list error was reported. */
  datatype Fetched = Fetched(stations: seq<Value>, reported: bool)

  /** `fetch_station_data`: an empty answer is reported and `[]` returned; otherwise the list is returned as is. */
  function FetchStationData(stations: seq<Value>): (r: Fetched)
    ensures r.stations == stations
    ensures r.reported <==> |stations| == 0
  {
    if |stations| == 0 then Fetched([], true) else Fetched(stations, false)
  }

  /** A row of a frame indexed by a column: the index value and the remaining cells. */
  datatype IndexedRow = IndexedRow(index: Value, cells: Dict)

  /** `set_index("id")`: `KeyError` when no row has an `id` column; rows keep their order. */
  function SetIndex(rows: seq<Dict>): Result<seq<IndexedRow>>
  {
    if !MetadataFetcher.HasColumn(rows, "id") then Err(KeyError)
    else Ok(seq(|rows|, i requires 0 <= i < |rows| => IndexedRow(Get(rows[i], "id"), Remove(rows[i], "id"))))
  }

  /** The frame `parse_station_data` returns for the stations, given the outcome of the projection loop. */
  function StationTable(stations: seq<Value>): Result<seq<IndexedRow>>
  {
    var p := MetadataFetcher.ParseThings(stations);
    if p.error.Some? then Err(p.error.value) else SetIndex(p.rows)
  }

  /** `parse_station_data(stations)`: project every station, then index the frame by `id`. */
  method ParseStationData(stations: seq<Value>) returns (table: Result<seq<IndexedRow>>, reports: seq<MetadataFetcher.Report>)
    ensures table == StationTable(stations)
    ensures reports == MetadataFetcher.ParseThings(stations).reports
  {
    var parsed;
    parsed, reports := MetadataFetcher.ParseThingsData(stations);
    if parsed.Err? {
      return Err(parsed.error), reports;
    }
    var found := MetadataFetcher.FindColumn(parsed.value, "id");
    if !found {
      return Err(KeyError), reports;
    }
    table := Ok(seq(|parsed.value|, i requires 0 <= i < |parsed.value| =>
                  IndexedRow(Get(parsed.value[i], "id"), Remove(parsed.value[i], "id"))));
  }

  /**
   * When the projection loop lets every station through, the frame fails with
   * `KeyError` exactly when no station gave a record; otherwise it has one row
   * per record, in input order and unsorted, indexed by the record's `id`,
   * whose cells are the record without `id`.
   */
  lemma StationTableRows(stations: seq<Value>)
    requires MetadataFetcher.ParseThings(stations).error.None?
    ensures var rows := MetadataFetcher.ParseThings(stations).rows;
            var t := StationTable(stations);
            (t.Err? <==> rows == []) && (t.Err? ==> t.error == KeyError) &&
            (t.Ok? ==> |t.value| == |rows| &&
                       forall i, k :: 0 <= i < |rows| ==>
                         Some(t.value[i].index) == Lookup(rows[i], "id") &&
                         Lookup(t.value[i].cells, k) == if k == "id" then None else Lookup(rows[i], k))
  {
    var rows := MetadataFetcher.ParseThings(stations).rows;
    MetadataFetcher.ParseThingsKeys(stations);
    forall r | r in rows ensures HasKey(r, "id") {
      KeysHasKey(r, "id");
    }
    if rows != [] {
      assert rows[0] in rows;
      assert MetadataFetcher.HasColumn(rows, "id");
    }
    forall i | 0 <= i < |rows| ensures HasKey(rows[i], "id") {
      assert rows[i] in rows;
    }
    forall i | 0 <= i < |rows| {
      RemoveProperties(rows[i], "id");
    }
  }

  /** An empty station list gives the `KeyError` of `set_index` on an empty frame. */
  lemma EmptyListFails()
    ensures StationTable([]) == Err(KeyError)
  {
  }
}
