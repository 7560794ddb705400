/**
 * The station (thing) and location record literals the metadata parsers build
 * from Grafcan API documents.  Python evaluates a dictionary literal left to
 * right, so the first subscript that raises ends the construction with its
 * exception; the functions below keep that order.
 */
module StationRecords {
  import opened Values

  /** `v["properties"].get(k)`: an absent sub-key gives `None`. */
  function Property(v: Value, k: string): Result<Value>
  {
    match Subscript(v, Key("properties"))
    case Err(e) => Err(e)
    case Ok(p) => GetMethod(p, k)
  }

  /** `v["location"]["coordinates"][i]`. */
  function Coordinate(v: Value, i: int): Result<Value>
  {
    match Subscript(v, Key("location"))
    case Err(e) => Err(e)
    case Ok(l) =>
      match Subscript(l, Key("coordinates"))
      case Err(e) => Err(e)
      case Ok(c) => Subscript(c, Pos(i))
  }

  /** The station record literal of `v`, or the exception its construction raises. */
  function ThingRecord(v: Value): (r: Result<Dict>)
    ensures !v.Object? ==> r == Err(TypeError)
    ensures r.Ok? ==> Keys(r.value) == ThingKeys
  {
    match Subscript(v, Key("id")) case Err(e) => Err(e) case Ok(id) =>
    match Subscript(v, Key("name")) case Err(e) => Err(e) case Ok(name) =>
    match Subscript(v, Key("description")) case Err(e) => Err(e) case Ok(description) =>
    match Property(v, "main_purpose") case Err(e) => Err(e) case Ok(mainPurpose) =>
    match Property(v, "serial_number") case Err(e) => Err(e) case Ok(serialNumber) =>
    match Property(v, "anemometer_height") case Err(e) => Err(e) case Ok(anemometerHeight) =>
    match Property(v, "geonica_teletrans_id") case Err(e) => Err(e) case Ok(teletransId) =>
    match Subscript(v, Key("location_set")) case Err(e) => Err(e) case Ok(locationSet) =>
    Ok([Entry("id", id), Entry("name", name), Entry("description", description),
        Entry("main_purpose", mainPurpose), Entry("serial_number", serialNumber),
        Entry("anemometer_height", anemometerHeight), Entry("geonica_teletrans_id", teletransId),
        Entry("location_set", locationSet)])
  }

  /** The location record literal of `v`, or the exception its construction raises. */
  function LocationRecord(v: Value): (r: Result<Dict>)
    ensures !v.Object? ==> r == Err(TypeError)
  {
    match Subscript(v, Key("id")) case Err(e) => Err(e) case Ok(id) =>
    match Subscript(v, Key("name")) case Err(e) => Err(e) case Ok(name) =>
    match Subscript(v, Key("description")) case Err(e) => Err(e) case Ok(description) =>
    match Coordinate(v, 0) case Err(e) => Err(e) case Ok(longitude) =>
    match Coordinate(v, 1) case Err(e) => Err(e) case Ok(latitude) =>
    Ok([Entry("id", id), Entry("name", name), Entry("description", description),
        Entry("longitude", longitude), Entry("latitude", latitude)])
  }

  const ThingKeys: seq<string> :=
    ["id", "name", "description", "main_purpose", "serial_number", "anemometer_height", "geonica_teletrans_id", "location_set"]

  const LocationKeys: seq<string> := ["id", "name", "description", "longitude", "latitude"]

  /** The keys every thing document must have. */
  predicate HasThingKeys(d: Dict)
  {
    HasKey(d, "id") && HasKey(d, "name") && HasKey(d, "description") &&
    HasKey(d, "properties") && HasKey(d, "location_set")
  }

  /** The keys a location document must have before its coordinates are read. */
  predicate HasLocationKeys(d: Dict)
  {
    HasKey(d, "id") && HasKey(d, "name") && HasKey(d, "description") && HasKey(d, "location")
  }

  /**
   * A station dictionary gives a record exactly when the five required keys are
   * present and `properties` is a dictionary; the record has the eight keys in
   * order, absent `properties` sub-keys becoming `None`.  Otherwise a missing
   * key raises `KeyError`, and a `properties` value without `.get` raises
   * `AttributeError`.
   */
  lemma ThingRecordFields(d: Dict)
    ensures var r := ThingRecord(Object(d));
            (r.Ok? <==> HasThingKeys(d) && Get(d, "properties").Object?) &&
            (r.Ok? ==> Keys(r.value) == ThingKeys &&
                       forall i :: 0 <= i < |r.value| && i !in {3, 4, 5, 6} ==> r.value[i].val == Get(d, r.value[i].key)) &&
            (r.Ok? ==> forall i :: 3 <= i < 7 ==> r.value[i].val == Get(Get(d, "properties").entries, r.value[i].key)) &&
            (r.Err? ==> r.error == if HasKey(d, "id") && HasKey(d, "name") && HasKey(d, "description") &&
                                      HasKey(d, "properties") && !Get(d, "properties").Object?
                                   then AttributeError else KeyError)
  {
  }

  /**
   * A location dictionary gives `id`, `name`, `description`, then longitude and
   * latitude as the first and second coordinates.  A missing top-level key, or
   * a `location` dictionary without `coordinates`, raises `KeyError`; a
   * `location` that is not a dictionary cannot be subscripted by name and
   * raises `TypeError`; a coordinates dictionary has no key `0` and raises
   * `KeyError`, a coordinates value that is not a sequence raises `TypeError`,
   * and a coordinates list with fewer than two entries raises `IndexError`.
   */
  lemma LocationRecordFields(d: Dict)
    ensures var r := LocationRecord(Object(d));
            (r.Ok? ==> Keys(r.value) == LocationKeys &&
                       (forall i :: 0 <= i < 3 ==> r.value[i].val == Get(d, r.value[i].key)) &&
                       r.value[3].val == Coordinate(Object(d), 0).value && r.value[4].val == Coordinate(Object(d), 1).value) &&
            (!HasLocationKeys(d) ==> r == Err(KeyError))
    ensures HasLocationKeys(d) && Get(d, "location").Object? && Lookup(Get(d, "location").entries, "coordinates").Some? &&
            Lookup(Get(d, "location").entries, "coordinates").value.List? ==>
              var xs := Lookup(Get(d, "location").entries, "coordinates").value.items;
              var r := LocationRecord(Object(d));
              (r.Ok? <==> |xs| >= 2) &&
              (|xs| < 2 ==> r == Err(IndexError)) &&
              (|xs| >= 2 ==> r.value[3].val == xs[0] && r.value[4].val == xs[1])
    ensures HasLocationKeys(d) && !Get(d, "location").Object? ==> LocationRecord(Object(d)) == Err(TypeError)
    ensures HasLocationKeys(d) && Get(d, "location").Object? ==>
              var c := Lookup(Get(d, "location").entries, "coordinates");
              var r := LocationRecord(Object(d));
              (c.None? ==> r == Err(KeyError)) &&
              (c.Some? && c.value.Object? ==> r == Err(KeyError)) &&
              (c.Some? && !(c.value.List? || c.value.Object? || c.value.Str?) ==> r == Err(TypeError))
  {
  }
}
