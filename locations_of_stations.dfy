/**
 * `get_locations_of_stations.py`: the location list of the Grafcan API turned
 * into a frame indexed and sorted by id, whose `location` column is replaced
 * by `longitude` and `latitude` columns.  The request is made by a utility
 * class that is not part of this model; its answer is the parameter
 * `stations`.
 */
module LocationsOfStations {
  import opened Values
  import opened Sorting
  import MetadataFetcher

  /** The station list handed on, and whether the empty-list error was reported. */
  datatype Fetched = Fetched(stations: seq<Value>, reported: bool)

  /** `fetch_station_data`: the list is returned unchanged; an empty one is reported first. */
  function FetchStationData(stations: seq<Value>): (r: Fetched)
    ensures r.stations == stations
    ensures r.reported <==> |stations| == 0
  {
    Fetched(stations, |stations| == 0)
  }

  /**
   * `extract_coordinates(location)`: a dictionary with `coordinates` is
   * unpacked into exactly two values; anything else gives two `None`s.
   */
  function ExtractCoordinates(location: Value): (r: Result<(Value, Value)>)
    ensures !(location.Object? && HasKey(location.entries, "coordinates")) ==> r == Ok((Null, Null))
    ensures location.Object? && Lookup(location.entries, "coordinates").Some? ==>
              var c := Lookup(location.entries, "coordinates").value;
              (c.List? && |c.items| == 2 ==> r == Ok((c.items[0], c.items[1]))) &&
              (c.List? && |c.items| != 2 ==> r == Err(ValueError)) &&
              (!(c.List? || c.Object? || c.Str?) ==> r == Err(TypeError))
  {
    if location.Object? && HasKey(location.entries, "coordinates") then
      match Iterate(Get(location.entries, "coordinates"))
      case Err(e) => Err(e)
      case Ok(xs) => if |xs| != 2 then Err(ValueError) else Ok((xs[0], xs[1]))
    else Ok((Null, Null))
  }

  /**
   * The index value of a row under `set_index("id")`: a number, or a missing
   * id (NaN, sorted last).  Any other id is refused here with `TypeError`.
   */
  function IndexKey(row: Dict): Result<Option<real>>
  {
    match Get(row, "id")
    case Num(x) => Ok(Some(x))
    case Null => Ok(None)
    case _ => Err(TypeError)
  }

  /** A row with its `location` replaced by `longitude` and `latitude`, or the error of the unpacking. */
  function Relocated(row: Dict): Result<Dict>
  {
    match ExtractCoordinates(Get(row, "location"))
    case Err(e) => Err(e)
    case Ok((longitude, latitude)) => Ok(Remove(Set(Set(row, "longitude", longitude), "latitude", latitude), "location"))
  }

  /**
   * A converted row has `longitude` and `latitude` from its own `location`, no
   * `location` column, and every other column as before.
   */
  lemma RelocatedColumns(row: Dict)
    requires Relocated(row).Ok?
    ensures var pair := ExtractCoordinates(Get(row, "location")).value;
            var r := Relocated(row).value;
            Lookup(r, "longitude") == Some(pair.0) && Lookup(r, "latitude") == Some(pair.1) && Lookup(r, "location") == None &&
            forall k :: k != "longitude" && k != "latitude" && k != "location" ==> Lookup(r, k) == Lookup(row, k)
  {
    var pair := ExtractCoordinates(Get(row, "location")).value;
    var once := Set(row, "longitude", pair.0);
    SetProperties(row, "longitude", pair.0);
    SetProperties(once, "latitude", pair.1);
    RemoveProperties(Set(once, "latitude", pair.1), "location");
  }

  function Moved(r: Keyed<Dict>): Keyed<Dict>
  {
    match Relocated(r.row)
    case Ok(d) => Keyed(r.key, d)
    case Err(_) => r
  }

  /** Every row rewritten by `Moved`, keys untouched. */
  function Relocate(rows: seq<Keyed<Dict>>): (r: seq<Keyed<Dict>>)
    ensures |r| == |rows|
    ensures forall i :: 0 <= i < |rows| ==> r[i] == Moved(rows[i]) && r[i].key == rows[i].key
  {
    seq(|rows|, i requires 0 <= i < |rows| => Moved(rows[i]))
  }

  /** The indexed row of one input station. */
  function IndexedRow(station: Dict): Keyed<Dict>
  {
    Keyed(match IndexKey(station) case Ok(k) => k case Err(_) => None, Remove(station, "id"))
  }

  function IndexedRows(stations: seq<Dict>): (r: seq<Keyed<Dict>>)
    ensures |r| == |stations|
  {
    seq(|stations|, i requires 0 <= i < |stations| => IndexedRow(stations[i]))
  }

  /** Every station has a usable id and a location that unpacks. */
  predicate AllRowsConvert(stations: seq<Dict>)
  {
    forall i :: 0 <= i < |stations| ==> IndexKey(stations[i]).Ok? && Relocated(Remove(stations[i], "id")).Ok?
  }

  /** `f` applied to every element. */
  function MapSeq<A, B>(s: seq<A>, f: A -> B): (r: seq<B>)
    ensures |r| == |s|
    ensures forall i :: 0 <= i < |s| ==> r[i] == f(s[i])
  {
    seq(|s|, i requires 0 <= i < |s| => f(s[i]))
  }

  lemma MapConcat<A, B>(a: seq<A>, b: seq<A>, f: A -> B)
    ensures MapSeq(a + b, f) == MapSeq(a, f) + MapSeq(b, f)
  {
    assert forall i :: 0 <= i < |a + b| ==> MapSeq(a + b, f)[i] == (MapSeq(a, f) + MapSeq(b, f))[i];
  }

  /** Mapping a function over two permutations of each other gives two permutations of each other. */
  lemma {:induction false} MapPermutation<A, B>(a: seq<A>, b: seq<A>, f: A -> B)
    requires multiset(a) == multiset(b)
    ensures multiset(MapSeq(a, f)) == multiset(MapSeq(b, f))
    decreases |a|
  {
    if a == [] {
      assert |b| == |multiset(b)| == 0;
    } else {
      assert a[0] in multiset(b);
      var j :| 0 <= j < |b| && b[j] == a[0];
      var rest := b[..j] + b[j + 1..];
      assert b == b[..j] + [b[j]] + b[j + 1..];
      assert multiset(b) == multiset(b[..j]) + multiset{b[j]} + multiset(b[j + 1..]);
      assert a == [a[0]] + a[1..];
      assert multiset(a) == multiset{a[0]} + multiset(a[1..]);
      assert multiset(rest) == multiset(b[..j]) + multiset(b[j + 1..]);
      calc {
        multiset(a[1..]);
        multiset(a) - multiset{a[0]};
        multiset(b) - multiset{b[j]};
        multiset(rest);
      }
      MapPermutation(a[1..], rest, f);
      MapConcat([a[0]], a[1..], f);
      MapConcat(b[..j] + [b[j]], b[j + 1..], f);
      MapConcat(b[..j], [b[j]], f);
      MapConcat(b[..j], b[j + 1..], f);
    }
  }

  /** Relocating two permutations of each other gives two permutations of each other. */
  lemma RelocatePermutation(a: seq<Keyed<Dict>>, b: seq<Keyed<Dict>>)
    requires multiset(a) == multiset(b)
    ensures multiset(Relocate(a)) == multiset(Relocate(b))
  {
    MapPermutation(a, b, Moved);
    assert Relocate(a) == MapSeq(a, Moved);
    assert Relocate(b) == MapSeq(b, Moved);
  }

  /** Every element of a permutation occurs in the other sequence. */
  lemma PermutationMember<T>(a: seq<T>, b: seq<T>, j: int)
    requires multiset(a) == multiset(b) && 0 <= j < |a|
    ensures exists k :: 0 <= k < |b| && b[k] == a[j]
  {
    assert a[j] in multiset(b);
  }

  /** The `location` of every row unpacks. */
  predicate AllRelocate(rows: seq<Keyed<Dict>>)
  {
    forall j :: 0 <= j < |rows| ==> Relocated(rows[j].row).Ok?
  }

  /** A permutation of the indexed rows converts exactly when the stations do, and fails only with a station's error. */
  lemma PermutedRows(sorted: seq<Keyed<Dict>>, stations: seq<Dict>)
    requires multiset(sorted) == multiset(IndexedRows(stations))
    ensures AllRelocate(sorted) <==>
            (forall k :: 0 <= k < |stations| ==> Relocated(Remove(stations[k], "id")).Ok?)
    ensures forall j :: 0 <= j < |sorted| && Relocated(sorted[j].row).Err? ==>
              exists k :: 0 <= k < |stations| && Relocated(Remove(stations[k], "id")) == Relocated(sorted[j].row)
  {
    var rows := IndexedRows(stations);
    assert forall k :: 0 <= k < |stations| ==> rows[k].row == Remove(stations[k], "id");
    forall j | 0 <= j < |sorted|
      ensures exists k :: 0 <= k < |stations| && Relocated(Remove(stations[k], "id")) == Relocated(sorted[j].row)
    {
      PermutationMember(sorted, rows, j);
    }
    forall k | 0 <= k < |stations|
      ensures exists j :: 0 <= j < |sorted| && Relocated(sorted[j].row) == Relocated(Remove(stations[k], "id"))
    {
      PermutationMember(rows, sorted, k);
    }
  }

  /** `set_index("id")` row by row: the indexed rows, or the error of the first id that does not convert. */
  method IndexById(stations: seq<Dict>) returns (rows: Result<seq<Keyed<Dict>>>)
    ensures rows.Ok? <==> forall i :: 0 <= i < |stations| ==> IndexKey(stations[i]).Ok?
    ensures rows.Ok? ==> rows.value == IndexedRows(stations)
    ensures rows.Err? ==> exists i :: 0 <= i < |stations| && IndexKey(stations[i]) == Err(rows.error)
  {
    var indexed: seq<Keyed<Dict>> := [];
    for i := 0 to |stations|
      invariant |indexed| == i
      invariant forall j :: 0 <= j < i ==> IndexKey(stations[j]).Ok? && indexed[j] == IndexedRow(stations[j])
    {
      match IndexKey(stations[i]) {
        case Err(e) =>
          return Err(e);
        case Ok(key) =>
          indexed := indexed + [Keyed(key, Remove(stations[i], "id"))];
      }
    }
    return Ok(indexed);
  }

  /** `pd.DataFrame(stations).set_index("id")` and `df.sort_index(inplace=True)`: a new frame, sorted by id. */
  method IndexAndSort(stations: seq<Dict>) returns (df: array<Keyed<Dict>>, error: Option<Exc>)
    ensures fresh(df)
    ensures error.None? <==> forall i :: 0 <= i < |stations| ==> IndexKey(stations[i]).Ok?
    ensures error.Some? ==> exists i :: 0 <= i < |stations| && IndexKey(stations[i]) == Err(error.value)
    ensures error.None? ==> df.Length == |stations| && Sorted(df[..]) && multiset(df[..]) == multiset(IndexedRows(stations))
  {
    var indexed := IndexById(stations);
    if indexed.Err? {
      return new Keyed<Dict>[0], Some(indexed.error);
    }
    var rows := indexed.value;
    df := new Keyed<Dict>[|rows|](i requires 0 <= i < |rows| => rows[i]);
    assert df[..] == rows;
    assert |rows| == |stations|;
    SortIndex(df);
    error := None;
  }

  /** `df["location"].apply(extract_coordinates)`, in frame order: the pairs, or the first unpacking error. */
  method ExtractAll(df: array<Keyed<Dict>>) returns (pairs: Result<seq<(Value, Value)>>)
    ensures pairs.Ok? <==> forall j :: 0 <= j < df.Length ==> Relocated(df[j].row).Ok?
    ensures pairs.Ok? ==> |pairs.value| == df.Length &&
                          forall j :: 0 <= j < df.Length ==> ExtractCoordinates(Get(df[j].row, "location")) == Ok(pairs.value[j])
    ensures pairs.Err? ==> exists j :: 0 <= j < df.Length && Relocated(df[j].row) == Err(pairs.error)
  {
    var coordinates: seq<(Value, Value)> := [];
    for i := 0 to df.Length
      invariant |coordinates| == i
      invariant forall j :: 0 <= j < i ==> ExtractCoordinates(Get(df[j].row, "location")) == Ok(coordinates[j])
    {
      match ExtractCoordinates(Get(df[i].row, "location")) {
        case Err(e) =>
          return Err(e);
        case Ok(pair) =>
          coordinates := coordinates + [pair];
      }
    }
    return Ok(coordinates);
  }

  /** The row with the coordinate columns set, before `location` is dropped. */
  function WithCoordinates(r: Keyed<Dict>, pair: (Value, Value)): Keyed<Dict>
  {
    Keyed(r.key, Set(Set(r.row, "longitude", pair.0), "latitude", pair.1))
  }

  /** `df[["longitude", "latitude"]] = …`: both columns assigned, row by row. */
  method SetCoordinates(df: array<Keyed<Dict>>, pairs: seq<(Value, Value)>)
    requires |pairs| == df.Length
    modifies df
    ensures forall j :: 0 <= j < df.Length ==> df[j] == WithCoordinates(old(df[j]), pairs[j])
  {
    for i := 0 to df.Length
      invariant forall j :: 0 <= j < i ==> df[j] == WithCoordinates(old(df[j]), pairs[j])
      invariant forall j :: i <= j < df.Length ==> df[j] == old(df[j])
    {
      df[i] := WithCoordinates(df[i], pairs[i]);
    }
  }

  /** `df.drop("location", axis=1, inplace=True)`. */
  method DropLocation(df: array<Keyed<Dict>>)
    modifies df
    ensures forall j :: 0 <= j < df.Length ==> df[j] == Keyed(old(df[j]).key, Remove(old(df[j]).row, "location"))
  {
    for i := 0 to df.Length
      invariant forall j :: 0 <= j < i ==> df[j] == Keyed(old(df[j]).key, Remove(old(df[j]).row, "location"))
      invariant forall j :: i <= j < df.Length ==> df[j] == old(df[j])
    {
      df[i] := Keyed(df[i].key, Remove(df[i].row, "location"));
    }
  }

  /** The coordinate columns assigned from the unpacked pairs, then `location` dropped: every row relocated. */
  method RelocateInPlace(df: array<Keyed<Dict>>, pairs: seq<(Value, Value)>)
    requires |pairs| == df.Length
    requires forall j :: 0 <= j < df.Length ==> ExtractCoordinates(Get(df[j].row, "location")) == Ok(pairs[j])
    modifies df
    ensures df[..] == Relocate(old(df[..]))
  {
    ghost var before := df[..];
    SetCoordinates(df, pairs);
    ghost var middle := df[..];
    assert forall j :: 0 <= j < df.Length ==> middle[j] == WithCoordinates(before[j], pairs[j]);
    DropLocation(df);
    forall j | 0 <= j < df.Length
      ensures df[j] == Moved(before[j])
    {
      assert df[j] == Keyed(middle[j].key, Remove(middle[j].row, "location"));
    }
    assert df[..] == Relocate(before);
  }

  /** The coordinate columns of the frame computed from `location`, then `location` dropped; or the first unpacking error, the frame untouched. */
  method MoveCoordinates(df: array<Keyed<Dict>>) returns (error: Option<Exc>)
    modifies df
    ensures error.None? <==> AllRelocate(old(df[..]))
    ensures error.Some? ==> exists j :: 0 <= j < df.Length && Relocated(old(df[..])[j].row) == Err(error.value)
    ensures error.None? ==> df[..] == Relocate(old(df[..]))
  {
    ghost var before := df[..];
    var pairs := ExtractAll(df);
    assert forall j :: 0 <= j < df.Length ==> before[j] == df[j];
    if pairs.Err? {
      return Some(pairs.error);
    }
    RelocateInPlace(df, pairs.value);
    return None;
  }

  /** Relocating rows keeps their ids, so a sorted frame stays sorted. */
  lemma RelocateSorted(rows: seq<Keyed<Dict>>)
    requires Sorted(rows)
    ensures Sorted(Relocate(rows))
  {
  }

  /**
   * `parse_station_data(stations)`: `set_index("id")`, an in-place
   * `sort_index`, the `longitude`/`latitude` columns computed from each row's
   * own `location` in sorted order, and an in-place drop of `location`.
   * Missing columns raise `KeyError`; otherwise the first error met escapes.
   * A result is a permutation of the converted stations, sorted by id.
   */
  method ParseStationData(stations: seq<Dict>) returns (table: Result<seq<Keyed<Dict>>>)
    ensures table.Ok? <==> MetadataFetcher.HasColumn(stations, "id") && MetadataFetcher.HasColumn(stations, "location") &&
                           AllRowsConvert(stations)
    ensures !MetadataFetcher.HasColumn(stations, "id") ==> table == Err(KeyError)
    ensures table.Err? ==> (table.error == KeyError && !(MetadataFetcher.HasColumn(stations, "id") && MetadataFetcher.HasColumn(stations, "location"))) ||
                           (exists i :: 0 <= i < |stations| && IndexKey(stations[i]) == Err(table.error)) ||
                           (exists i :: 0 <= i < |stations| && Relocated(Remove(stations[i], "id")) == Err(table.error))
    ensures table.Ok? ==> Sorted(table.value) && |table.value| == |stations| &&
                          multiset(table.value) == multiset(Relocate(IndexedRows(stations)))
  {
    var hasId := MetadataFetcher.FindColumn(stations, "id");
    if !hasId {
      return Err(KeyError);
    }
    var df, indexError := IndexAndSort(stations);
    if indexError.Some? {
      return Err(indexError.value);
    }
    ghost var sorted := df[..];
    PermutedRows(sorted, stations);
    var hasLocation := MetadataFetcher.FindColumn(stations, "location");
    if !hasLocation {
      return Err(KeyError);
    }
    var moved := MoveCoordinates(df);
    if moved.Some? {
      return Err(moved.value);
    }
    RelocatePermutation(sorted, IndexedRows(stations));
    RelocateSorted(sorted);
    table := Ok(df[..]);
  }
}
