# ClimaCan Grafcan collector, modelled in Dafny

ClimaCan collects weather data from the Grafcan sensor API of the Canary
Islands. This project models its Grafcan collector: the jobs that read station
metadata and station locations from the API, and the job that writes each
station's last observation to InfluxDB. Each model follows the branches of the
Python source it names, and comes with proofs of what that code does. The few
places where the model is narrower than the code are listed under
"## Left out".

- **Observation writer** (`write_last_observations.py`). It reads the station
  registry, sorted by `things_id`. For each station it fetches the last
  observation. It derives the measurement name from the station's location
  name with `normalize_measurement`. It sanitises the points with
  `add_features_to_points` and writes them with the station metadata as tags.
  Any exception skips the station and the loop goes on.
  - Modules `Measurement`, `Sanitizer`, `SanitizerFacts`, `Batch`.
  - Points are objects updated in place (`Sanitizer.Point`). Because lists of
    points may alias, the loop is specified over a heap snapshot. For distinct
    points, `SanitizerFacts.SanitizeRunDistinct` relates that to a run over
    plain dictionaries.
- **Last observations** (`FetchObservationsLast.py`). Module `ObservationsLast`:
  - column-name cleaning;
  - the concatenation of name and unit;
  - the pivot into a table keyed by (result time, column), which fails on a
    repeated pair;
  - the empty table returned when the request fails.
- **Station metadata** (`classes/StationMetadataFetcher.py`, and the same logic
  under public names in `StationMetadataFetcher.py`). Module `MetadataFetcher`
  models:
  - the station loop, which catches only `KeyError`;
  - the location loop. It always reads `location_set[0]`; it reports stations
    with several locations; and its handler reads a stale or unbound
    `location_data`;
  - the positional merge, with prefixed columns and the in-place drop of
    `things_location_set`;
  - the in-place text clean-up;
  - the early exits of `run`.

  The record literals are in `StationRecords`. They are evaluated in Python's
  left-to-right order, so the first missing key decides the exception.
- **Station lists** (`get_urls_of_stations.py`, `get_locations_of_stations.py`):
  - modules `UrlsOfStations` and `LocationsOfStations`;
  - `set_index("id")`;
  - `sort_index(inplace=True)`, as an in-place insertion sort in `Sorting`;
  - the coordinate unpacking of `extract_coordinates`.
- **Historical locations** (`files/update_historical_locations.py`). Module
  `HistoricalLocations` models:
  - the in-place flattening of each result's one-element `location` list;
  - `build_row` and the two parsers with their re-raised exceptions;
  - the numbering of rows from 1;
  - the crash of `row.index = [n]` on a row that was not built.

Shared modules:
- `Values` models JSON/Python values, dictionaries as ordered entry lists, and
  the exception classes.
- `Text` models `str.replace`, `lower` and `normalize_text`.

Where the code and its docstrings read differently, the model follows the code:
- `add_features_to_points` deletes the top-level key of each `None` field
  (`del point[key]`), not the field entry its docstring speaks of. A point
  whose `None` field names no top-level key raises `KeyError`, and the station
  is skipped. An ordinary reading such as
  `{fields: {temperature: 21.5, humidity: None}}` does exactly that
  (`SanitizerFacts.NullReadingPointRaises`, `Batch.NullReadingStationSkipped`).
- `read_stations_csv` does not reject duplicate station ids. The batch loop
  records per-station outcomes, and no summary is computed.
- `write_points` is called even when no point was kept.

## Model

| member | source | states |
|---|---|---|
| Text.NormalizeText | src/common/functions.py:14-24 | when the transliteration already yields ASCII, the result is exactly that transliteration |
| Text.ReplaceCharRemoves | src/common/functions.py:24 | after replacing `ñ` by `n` the character is gone, and a character absent before stays absent |
| Text.ReplaceAsciiFree | src/common/functions.py:24 | replacing `ñ`/`Ñ` leaves an ASCII string unchanged |
| Measurement.NormalizeMeasurement | src/grafcan/files/write_last_observations.py:49-65 | the name has no space, comma, parenthesis or upper-case letter; its length is the input's minus commas and parentheses; it has one underscore per space plus the original underscores; normalising it again changes nothing |
| Measurement.MeasurementClean | src/grafcan/files/write_last_observations.py:59-65 | the replacement chain leaves no space, comma, parenthesis or upper-case letter |
| Measurement.MeasurementLength | src/grafcan/files/write_last_observations.py:59-65 | only commas and parentheses shorten the text |
| Measurement.MeasurementUnderscores | src/grafcan/files/write_last_observations.py:60 | each space becomes exactly one underscore, and existing underscores stay |
| Measurement.MeasurementFixesClean | src/grafcan/files/write_last_observations.py:59-65 | a string without the stripped characters or capitals is a fixed point of the chain |
| Measurement.MeasurementIdempotent | src/grafcan/files/write_last_observations.py:59-65 | applying the chain twice is applying it once |
| Sanitizer.StampAndStrip | src/grafcan/files/write_last_observations.py:83-95 | one loop pass: the point's new entries and its fate (kept, dropped, or the exception) are those of the loop body on its old entries |
| Sanitizer.AddFeaturesToPoints | src/grafcan/files/write_last_observations.py:68-98 | the heap after the call is the run over the points in order, aliasing included; the result is the kept points, or the first exception |
| SanitizerFacts.NullKeysMembers | src/grafcan/files/write_last_observations.py:87-89 | the deletion list holds exactly the field names whose value is `None` |
| SanitizerFacts.NullKeysDistinct | src/grafcan/files/write_last_observations.py:87-89 | the deletion list repeats no key when the fields map has distinct keys |
| SanitizerFacts.RemoveAllLookup | src/grafcan/files/write_last_observations.py:90-91 | after the deletions the listed keys are absent and every other key keeps its value |
| SanitizerFacts.DeleteKeysRuns | src/grafcan/files/write_last_observations.py:90-91 | the loop deletes every key, or stops at the first absent key with the earlier deletions kept |
| SanitizerFacts.DeleteKeysCompletes | src/grafcan/files/write_last_observations.py:90-91 | with distinct keys the deletions complete iff every listed key is present |
| SanitizerFacts.StepPointFailures | src/grafcan/files/write_last_observations.py:84-91 | a missing `fields` raises `KeyError`, a non-dictionary one `AttributeError`, and otherwise only `KeyError` can escape |
| SanitizerFacts.StepPointStamps | src/grafcan/files/write_last_observations.py:84 | the point carries the measurement unless a `None` field named `measurement` deletes it |
| SanitizerFacts.StepPointSuccess | src/grafcan/files/write_last_observations.py:84-95 | on normal return the listed keys are gone, `measurement` is set, all else is unchanged (so `fields` still holds its `None` values), and the point is kept iff `fields` is non-empty |
| SanitizerFacts.StepPointReturns | src/grafcan/files/write_last_observations.py:84-91 | the body returns normally iff every `None` field name is a top-level key (or `measurement`) and `fields` is not one of them |
| SanitizerFacts.StepPointPartial | src/grafcan/files/write_last_observations.py:90-91 | when a deletion fails, `KeyError` escapes and the deletions made before it remain in the point |
| SanitizerFacts.NullReadingPointRaises | src/grafcan/files/write_last_observations.py:87-91 | the point `{fields: {temperature: 21.5, humidity: None}}` raises `KeyError` |
| SanitizerFacts.FirstRaise | src/grafcan/files/write_last_observations.py:82-91 | the first position whose loop body raises: the points before it return normally |
| SanitizerFacts.SanitizeListInOrder | src/grafcan/files/write_last_observations.py:82-95 | the points before the first exception are processed, the raising point keeps its partial edits, the later points are untouched, and with no exception every keep flag is the body's verdict |
| SanitizerFacts.SanitizeListKept | src/grafcan/files/write_last_observations.py:93-98 | on normal return a point is kept iff its `fields` map is non-empty, and no `fields` map changed |
| SanitizerFacts.SanitizeListStamps | src/grafcan/files/write_last_observations.py:84 | every point reached carries the measurement, unless a `None` field named `measurement` removed it |
| SanitizerFacts.SanitizeRunDistinct | src/grafcan/files/write_last_observations.py:82-98 | for distinct point objects, the object run matches the dictionary run: final entries, kept points, exception, and other points untouched |
| Batch.ReadStationsCsv | src/grafcan/files/write_last_observations.py:33-46 | the registry comes back sorted by id (missing ids last) and is a permutation of the rows read; nothing is deduplicated |
| Batch.ObjectRunIsListRun | src/grafcan/files/write_last_observations.py:119 | on fresh, distinct points the sanitiser raises what the dictionary run raises, and the kept objects hold the kept final dictionaries |
| Batch.SanitizeAndWrite | src/grafcan/files/write_last_observations.py:117-133 | the station's outcome and write call are those of the sanitised points, computed over point objects |
| Batch.ProcessOne | src/grafcan/files/write_last_observations.py:111-142 | one loop pass yields the station's outcome and write call, with every exception caught |
| Batch.RunBatch | src/grafcan/files/write_last_observations.py:101-144 | every station of the sorted registry is processed in order, each with its own outcome; the write calls are the stations' calls in order, and their ids ascend |
| Batch.WritesInStationOrder | src/grafcan/files/write_last_observations.py:108-130 | the write calls of a run over a sorted registry come in ascending station order |
| Batch.FlattenOrdered | src/grafcan/files/write_last_observations.py:108-130 | every call names a registry station, there is at most one per station, and the ids of the logged calls ascend |
| Batch.FetchFailureSkips | src/grafcan/files/write_last_observations.py:111-113 | a failed fetch skips the station with no write: `DataFetchError` as a fetch skip, anything else as an unexpected failure |
| Batch.BadNameSkips | src/grafcan/files/write_last_observations.py:115-117 | a missing or non-string `locations_name` skips the station before sanitising, without a write |
| Batch.WriteAttempted | src/grafcan/files/write_last_observations.py:119-130 | `write_points` is called iff the sanitiser returns normally, even when no point was kept, with the metadata as tags and the kept points in order |
| Batch.WrittenMeansStored | src/grafcan/files/write_last_observations.py:126-142 | a station counts as written iff its write returned normally; a failed write is reported with its error, under the `DataFetchError` handler when that is its error |
| Batch.StationOfCall | src/grafcan/files/write_last_observations.py:126-130 | every outcome and write call names its own station, and the call's tags are that station's metadata |
| Batch.NullReadingStationSkipped | src/grafcan/files/write_last_observations.py:111-142 | a station whose observation has one reading and one `None` reading is skipped with `KeyError`, and nothing is written for it |
| ObservationsLast.CleanColumnName | src/grafcan/classes/FetchObservationsLast.py:66-82 | the cleaned name has no space, dot, parenthesis, degree sign or ASCII capital; only those deleted characters shorten it; cleaning it again changes nothing |
| ObservationsLast.CleanClean | src/grafcan/classes/FetchObservationsLast.py:75-82 | the chain leaves none of the deleted characters, no space and no ASCII capital |
| ObservationsLast.CleanLength | src/grafcan/classes/FetchObservationsLast.py:75-82 | the length drops by the number of dots, parentheses and degree signs |
| ObservationsLast.CleanFixesClean | src/grafcan/classes/FetchObservationsLast.py:75-82 | an already clean name is left unchanged |
| ObservationsLast.CleanIdempotent | src/grafcan/classes/FetchObservationsLast.py:75-82 | cleaning twice is cleaning once |
| ObservationsLast.JoinNameUnit | src/grafcan/classes/FetchObservationsLast.py:99 | the cell is `name + "_" + unit` exactly when both are strings |
| ObservationsLast.ColumnKeys | src/grafcan/classes/FetchObservationsLast.py:99-101 | every observation gets its cleaned key iff all names and units are strings; otherwise `TypeError` or `AttributeError` |
| ObservationsLast.PivotCells | src/grafcan/classes/FetchObservationsLast.py:104 | the pivot succeeds iff no (time, column) pair repeats (else `ValueError`); its cells are exactly the pairs, each holding its value |
| ObservationsLast.ParseObservations | src/grafcan/classes/FetchObservationsLast.py:84-113 | a table exists iff the four columns exist, every name and unit is a string and no pair repeats; a missing column raises `KeyError`; index, columns and cells are those of the observations |
| ObservationsLast.CellsOfObservations | src/grafcan/classes/FetchObservationsLast.py:99-104 | the pivot input repeats a pair iff two observations share time and key, and it occupies exactly their pairs |
| ObservationsLast.FetchLastObservation | src/grafcan/classes/FetchObservationsLast.py:115-144 | a failed request yields the empty table without parsing; an empty observation list raises `KeyError` |
| ObservationsLast.DuplicateReadingFails | src/grafcan/classes/FetchObservationsLast.py:104 | two readings of one quantity at one time make the pivot fail |
| StationRecords.ThingRecord | src/grafcan/classes/StationMetadataFetcher.py:81-92 | a non-dictionary raises `TypeError`; a record has the eight keys in literal order |
| StationRecords.LocationRecord | src/grafcan/classes/StationMetadataFetcher.py:128-134 | a non-dictionary raises `TypeError` |
| StationRecords.ThingRecordFields | src/grafcan/classes/StationMetadataFetcher.py:81-92 | a record exists iff the five keys are present and `properties` is a dictionary; absent sub-keys become `None`; otherwise `KeyError`, or `AttributeError` for a `properties` without `.get` |
| StationRecords.LocationRecordFields | src/grafcan/classes/StationMetadataFetcher.py:128-134 | longitude and latitude are the first two coordinates; a missing top-level key, a `location` without `coordinates` or a coordinates dictionary raises `KeyError`; a `location` that is not a dictionary or coordinates that are not a sequence raise `TypeError`; fewer than two coordinates raise `IndexError` |
| MetadataFetcher.RemoveSpecialCharacters | src/grafcan/classes/StationMetadataFetcher.py:33-44 | non-strings are returned as they are; strings lose `ñ`/`Ñ` and equal the transliteration when that is ASCII |
| MetadataFetcher.ParseThingsEscapes | src/grafcan/classes/StationMetadataFetcher.py:79-98 | no exception escapes iff every station gives a record or a `KeyError`; an escaping exception is that of the first other station |
| MetadataFetcher.ParseThingsRows | src/grafcan/classes/StationMetadataFetcher.py:78-93 | the table holds one record per station that gives one, in input order |
| MetadataFetcher.ParseThingsReports | src/grafcan/classes/StationMetadataFetcher.py:94-98 | every report names a station whose record raised `KeyError`, and without an escape every such station is reported |
| MetadataFetcher.ThingCrash | src/grafcan/classes/StationMetadataFetcher.py:80-94 | a station stops the loop iff it is not a dictionary or its `properties` has no `.get` |
| MetadataFetcher.ParseThingsKeys | src/grafcan/classes/StationMetadataFetcher.py:81-93 | every emitted record has the eight keys, `location_set` among them |
| MetadataFetcher.ParseThingsData | src/grafcan/classes/StationMetadataFetcher.py:69-103 | the loop's records and reports, or the exception that escaped it |
| MetadataFetcher.LocationStepFirst | src/grafcan/classes/StationMetadataFetcher.py:117-135 | an iteration appends the first location exactly when it is fetched and projected; several locations are reported first; an empty list raises `IndexError` |
| MetadataFetcher.LocationStepRows | src/grafcan/classes/StationMetadataFetcher.py:123-135 | an iteration appends the row's first location record if it has one, and nothing otherwise |
| MetadataFetcher.LocationStepMany | src/grafcan/classes/StationMetadataFetcher.py:118-122 | a row with several locations is reported unless an exception escapes |
| MetadataFetcher.ParseLocationsRows | src/grafcan/classes/StationMetadataFetcher.py:116-145 | the location table holds the first location of each row that has one, in row order, and is no longer than the thing table |
| MetadataFetcher.ParseLocationsReports | src/grafcan/classes/StationMetadataFetcher.py:117-122 | without an escape, every row with several locations is reported |
| MetadataFetcher.UnboundLocationData | src/grafcan/classes/StationMetadataFetcher.py:136-140 | a `KeyError` before any document was fetched makes the handler raise `NameError` |
| MetadataFetcher.ParseLocationsData | src/grafcan/classes/StationMetadataFetcher.py:105-145 | the loop's location records and reports, or the exception that escaped it |
| MetadataFetcher.DroppedColumn | src/grafcan/classes/StationMetadataFetcher.py:163 | the dropped column is the prefixed `location_set` and no other |
| MetadataFetcher.MergedThingColumn | src/grafcan/classes/StationMetadataFetcher.py:160-168 | a joined row answers `things_<k>` with the thing's cleaned `k`, and has no `things_location_set` |
| MetadataFetcher.MergedLocationColumn | src/grafcan/classes/StationMetadataFetcher.py:160-168 | a joined row answers `locations_<k>` with the location's cleaned `k` |
| MetadataFetcher.MergedOtherColumn | src/grafcan/classes/StationMetadataFetcher.py:160-162 | a joined row has no column without one of the two prefixes |
| MetadataFetcher.MergedPositional | src/grafcan/classes/StationMetadataFetcher.py:160-168 | the join is positional: min of the two lengths, row `k` pairing the `k`-th thing with the `k`-th location; the drop fails iff no row has `location_set` |
| MetadataFetcher.JoinOnIndex | src/grafcan/classes/StationMetadataFetcher.py:160-162 | a fresh frame whose row `k` is the prefixed `k`-th thing followed by the prefixed `k`-th location |
| MetadataFetcher.FindColumn | src/grafcan/classes/StationMetadataFetcher.py:163 | true iff some row has the column |
| MetadataFetcher.DropColumn | src/grafcan/classes/StationMetadataFetcher.py:163 | the column leaves every row of the frame, in place |
| MetadataFetcher.NormalizeFrame | src/grafcan/classes/StationMetadataFetcher.py:165-168 | every cell of the frame is cleaned in place |
| MetadataFetcher.MergeDataframes | src/grafcan/classes/StationMetadataFetcher.py:147-172 | the result is the positional join, without `things_location_set`, cleaned; `KeyError` when the column is absent |
| MetadataFetcher.MetadataRunSaves | src/grafcan/classes/StationMetadataFetcher.py:187-205 | the save is reached iff the request succeeded and both tables are non-empty; the merge never fails then; a saved table has one row per location, at most one per station |
| MetadataFetcher.RunMetadata | src/grafcan/classes/StationMetadataFetcher.py:187-208 | `run` stops at the first failed or empty step, else merges and saves |
| UrlsOfStations.FetchStationData | src/grafcan/get_urls_of_stations.py:28-49 | the list is returned unchanged, and the error is reported exactly when it is empty |
| UrlsOfStations.ParseStationData | src/grafcan/get_urls_of_stations.py:66-100 | the table indexed by `id` from the projection loop's records, or its error |
| UrlsOfStations.StationTableRows | src/grafcan/get_urls_of_stations.py:76-98 | `KeyError` iff no station gave a record; otherwise one row per record in input order, unsorted, indexed by its `id`, with the other cells unchanged |
| UrlsOfStations.EmptyListFails | src/grafcan/get_urls_of_stations.py:98 | an empty station list fails with `KeyError` at `set_index` |
| LocationsOfStations.FetchStationData | src/grafcan/get_locations_of_stations.py:26-42 | the list is returned unchanged, and the error is reported exactly when it is empty |
| LocationsOfStations.ExtractCoordinates | src/grafcan/get_locations_of_stations.py:45-55 | two `None`s without `coordinates`; a two-element list unpacks in order; other lengths raise `ValueError`, non-iterables `TypeError` |
| LocationsOfStations.RelocatedColumns | src/grafcan/get_locations_of_stations.py:73-74 | a converted row has its own coordinates, no `location`, and all other columns unchanged |
| LocationsOfStations.IndexById | src/grafcan/get_locations_of_stations.py:67 | the rows indexed by `id` iff every id converts, else the error of one that does not |
| LocationsOfStations.IndexAndSort | src/grafcan/get_locations_of_stations.py:67-70 | a new frame with one row per station, sorted by id and a permutation of the indexed rows |
| LocationsOfStations.ExtractAll | src/grafcan/get_locations_of_stations.py:73 | every row's pair in frame order iff every location unpacks, else one row's error |
| LocationsOfStations.SetCoordinates | src/grafcan/get_locations_of_stations.py:73 | both coordinate columns are assigned, row by row, in place |
| LocationsOfStations.DropLocation | src/grafcan/get_locations_of_stations.py:74 | `location` leaves every row, in place, keys unchanged |
| LocationsOfStations.RelocateInPlace | src/grafcan/get_locations_of_stations.py:73-74 | every row is relocated in place |
| LocationsOfStations.MoveCoordinates | src/grafcan/get_locations_of_stations.py:73-74 | the frame is relocated iff every location unpacks; otherwise the error of one row |
| LocationsOfStations.RelocateSorted | src/grafcan/get_locations_of_stations.py:70-74 | relocation keeps ids, so the sorted frame stays sorted |
| LocationsOfStations.ParseStationData | src/grafcan/get_locations_of_stations.py:58-76 | a table exists iff the `id` and `location` columns exist and every row converts; it is sorted by id, one row per station, a permutation of the converted stations; a missing `id` column raises `KeyError` before any row is read; otherwise `KeyError` or a row's error |
| Sorting.Insert | src/grafcan/get_locations_of_stations.py:70 | one insertion step extends the sorted prefix by one row, permuting the frame |
| Sorting.SortIndex | src/grafcan/get_locations_of_stations.py:70 | the frame is sorted in place, ascending with missing ids last, as a permutation of its rows |
| HistoricalLocations.ParseLocationsData | src/grafcan/files/update_historical_locations.py:21-41 | a non-dictionary raises `AttributeError`; any escape is `KeyError`, `Exception` or `AttributeError` |
| HistoricalLocations.ParseThingsData | src/grafcan/files/update_historical_locations.py:47-72 | a non-dictionary raises `AttributeError`; any escape is `KeyError`, `Exception` or `AttributeError` |
| HistoricalLocations.ParseLocationsDataFields | src/grafcan/files/update_historical_locations.py:23-41 | exactly the five `location_` columns with the first two coordinates; a missing top-level key, a `location` without `coordinates` or a coordinates dictionary re-raises `KeyError`; a `location` that is not a dictionary, coordinates that are not a sequence, or a short coordinates list raise the generic `Exception` |
| HistoricalLocations.ParseThingsDataFields | src/grafcan/files/update_historical_locations.py:49-72 | a row iff the five keys exist and `properties` is a dictionary; exactly the eight `thing_` columns; `KeyError` for a missing key; the generic `Exception` for a bad `properties` |
| HistoricalLocations.FormatOneRewrites | src/grafcan/files/update_historical_locations.py:81-88 | a result is rewritten iff its `location` list has one element, which replaces it with all other keys unchanged; other lengths raise the generic `Exception` |
| HistoricalLocations.FirstFormatFailure | src/grafcan/files/update_historical_locations.py:81-88 | the results before it format, and it does not |
| HistoricalLocations.FormatAllResults | src/grafcan/files/update_historical_locations.py:80-89 | formatting succeeds iff every result formats, keeping count and order; otherwise the first failure's exception |
| HistoricalLocations.FormatHistoricalLocationsData | src/grafcan/files/update_historical_locations.py:78-89 | the results are rewritten in place; on an exception the results before it stay rewritten and the rest are untouched |
| HistoricalLocations.AssignedCell | src/grafcan/files/update_historical_locations.py:149 | assigning a value to a column of the one-row frame broadcasts a scalar, unpacks a one-element list, gives a missing cell for a dictionary, and raises `ValueError` for a list of any other length |
| HistoricalLocations.CombinedColumns | src/grafcan/files/update_historical_locations.py:148-149 | the combined row has the thing columns, the location columns, then `start_up_station` holding the assigned cell, with every other column unchanged; a start-up list whose length is not one raises `ValueError` |
| HistoricalLocations.BuildRowColumns | src/grafcan/files/update_historical_locations.py:138-159 | a built row has the station, location and start-up columns, with start-up the cell that `time` assigns; a `time` list whose length is not one makes the `try` block fail; a failure becomes `None` when the result has `thing`, else `KeyError` escapes the handler |
| HistoricalLocations.CollectRowsNumbered | src/grafcan/files/update_historical_locations.py:178-187 | rows are collected iff every row is built, one per result, the n-th with index n |
| HistoricalLocations.CollectRowsCrash | src/grafcan/files/update_historical_locations.py:179-183 | the first unbuilt row stops the loop: `AttributeError` for `None`, since `row.index = [n]` runs before the check |
| HistoricalLocations.CollectStations | src/grafcan/files/update_historical_locations.py:177-187 | the loop of `run` yields exactly the rows the characterised `CollectRows` gives for the outcomes of `build_row`: one per result numbered from 1, or the first unbuilt row's exception |
| HistoricalLocations.RunHistorical | src/grafcan/files/update_historical_locations.py:161-196 | `run` iterates `results` as Python does, aborts on a failed fetch or format, crashes on an unbuilt row, else concatenates and saves |
| HistoricalLocations.HistoricalRunSaves | src/grafcan/files/update_historical_locations.py:161-196 | a saved table comes from a non-empty `results` list and has one row per result, numbered from 1, the n-th holding the row `build_row` built from the n-th formatted result; a failed fetch aborts; a non-list `results` aborts with `TypeError` unless it is empty; an empty `results` fails at concatenation |

## Left out

- HTTP requests, InfluxDB writes and CSV file I/O are not modelled. Each is a function parameter (`fetch`, `api`, `write`, `save`) or an argument (the fetched documents, the parsed registry).
- Logging is not modelled.
- `handle_error` is not modelled beyond the reports it is given. It is taken to log and return; an `exit_code` it might act on is not modelled.
- `unidecode` is not modelled; its transliteration table is not visible, so it is a parameter.
- `lower` is modelled on ASCII letters only. In `normalize_measurement` it runs after the transliteration, so its input is expected to be ASCII.
- ObservationsLast.CleanColumnName: the API's `name` and `unit` are lowered without transliteration, so a non-ASCII capital such as `Í` passes through unchanged in the model, whereas Python's `str.lower` lowers it; its "no capital" promise covers ASCII capitals only.
- Floating-point values are not modelled as floats. Numbers are opaque reals, and NaN is modelled as a missing cell (`Null`) or a missing id. As a result, `Sanitizer.NullKeys` treats a NaN field like a `None` field and deletes its key, whereas the `value is None` test of `add_features_to_points` would keep a NaN field.
- `pd.to_datetime` on the pivot index is not modelled; the index keeps the raw `resultTime` values.
- The DataFrame/list mismatch in the observation writer is not modelled: `fetch_last_observation` returns a DataFrame, but the batch hands its result to `add_features_to_points` as a list of points. The `fetch` collaborator returns that list directly.
- Sorting.SortIndex: ties between equal ids are left in no particular order, as with pandas' default non-stable sort.
- LocationsOfStations.IndexKey: only numeric or missing ids are ordered; other ids are refused with `TypeError` instead of following pandas' mixed-type rules.
- HistoricalLocations.AssignedCell: a one-element list whose element is itself a list or a dictionary is taken to give that element as the cell; pandas' handling of such nested values is not modelled.
- MetadataFetcher.ParseLocationsData: a thing row without `location_set` raises `KeyError`. That cannot happen after the station loop, which always emits the key.
- MetadataFetcher.RunMetadata: its contract does not state the reports it collects; those are stated by `ParseThingsData` and `ParseLocationsData`.
- Reports carry the position of the offending station, not the message text.
- The duplicated class in `src/grafcan/StationMetadataFetcher.py` is not modelled separately; it shares the `MetadataFetcher` model. Its lines `36-40`, `61-89`, `91-123`, `125-146` and `167-186` have the same logic as the private-name version. Its `save_to_csv` also writes to InfluxDB, and that write is part of `save`.
- `main_grafcan.py`, `get_data_stations.py`, `GrafcanUtils.py`, `update_list_of_stations.py` and `conf.py` are not part of this model.
