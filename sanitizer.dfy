/**
 * The Point Sanitizer of the observation writer, `add_features_to_points`
 * (src/grafcan/files/write_last_observations.py:68-98), as the code is
 * written: every point is stamped with the measurement, then for every field
 * whose value is `None` the TOP-LEVEL key of that name is deleted from the
 * point (`del point[key]`), and a point is kept when its `"fields"` map is
 * non-empty.  A point is a dictionary object updated in place.
 */
module Sanitizer {
  import opened Values

  /** A point dictionary, shared between the caller's list and the returned list. */
  class Point {
    var entries: Dict

    constructor (d: Dict)
      ensures entries == d
    {
      entries := d;
    }
  }

  /** Python truthiness of a value, as `if point["fields"]:` tests it. */
  predicate Truthy(v: Value)
  {
    match v
    case Null => false
    case Bool(b) => b
    case Num(x) => x != 0.0
    case Str(s) => s != []
    case List(xs) => xs != []
    case Object(d) => d != []
  }

  /** `[key for key, value in fields.items() if value is None]`. */
  function NullKeys(fields: Dict): seq<string>
  {
    if fields == [] then []
    else (if fields[0].val == Null then [fields[0].key] else []) + NullKeys(fields[1..])
  }

  /** `for key in keys: del d[key]`: the dictionary when the loop stops, and whether it ran to the end. */
  function DeleteKeys(d: Dict, keys: seq<string>): (Dict, bool)
    decreases |keys|
  {
    if keys == [] then (d, true)
    else if !HasKey(d, keys[0]) then (d, false)   // KeyError
    else DeleteKeys(Remove(d, keys[0]), keys[1..])
  }

  /** The deletions of keys[..n], each key being present when its turn comes. */
  function RemoveAll(d: Dict, keys: seq<string>): Dict
    decreases |keys|
  {
    if keys == [] then d else RemoveAll(Remove(d, keys[0]), keys[1..])
  }

  datatype Outcome = Keep | Drop | Raise(error: Exc)

  /** The body of the loop of `add_features_to_points` on one point: its new entries and what became of it. */
  function StepPoint(e: Dict, m: string): (Dict, Outcome)
  {
    var e1 := Set(e, "measurement", Str(m));
    match Lookup(e1, "fields")
    case None => (e1, Raise(KeyError))
    case Some(f) =>
      if !f.Object? then (e1, Raise(AttributeError))    // `.items()` exists on dictionaries only
      else
        var (e2, completed) := DeleteKeys(e1, NullKeys(f.entries));
        if !completed then (e2, Raise(KeyError))
        else
          match Lookup(e2, "fields")
          case None => (e2, Raise(KeyError))     // a `None` field named "fields" deleted the map itself
          case Some(f2) => (e2, if Truthy(f2) then Keep else Drop)
  }

  // ---------------------------------------------------------------------------
  // The run over a list of point dictionaries, by value

  /** What the loop leaves behind: every point's final entries, which points were kept, and the exception if one escaped. */
  datatype ListRun = ListRun(finals: seq<Dict>, keep: seq<bool>, error: Option<Exc>)

  function SanitizeList(es: seq<Dict>, m: string): (r: ListRun)
    ensures |r.finals| == |es| && |r.keep| == |es|
  {
    if es == [] then ListRun([], [], None)
    else
      var (e', o) := StepPoint(es[0], m);
      if o.Raise? then ListRun([e'] + es[1..], seq(|es|, _ => false), Some(o.error))
      else
        var rest := SanitizeList(es[1..], m);
        ListRun([e'] + rest.finals, [o.Keep?] + rest.keep, rest.error)
  }

  /** The elements of `s` whose flag is set, in order. */
  function Select<T>(s: seq<T>, flags: seq<bool>): (r: seq<T>)
    requires |flags| == |s|
    ensures |r| <= |s|
    ensures forall x :: x in r ==> x in s
  {
    if s == [] then [] else (if flags[0] then [s[0]] else []) + Select(s[1..], flags[1..])
  }

  // ---------------------------------------------------------------------------
  // The run over point objects, which may alias one another

  /** The entries of every point, read from the heap. */
  function Snapshot(ps: seq<Point>): (h: map<Point, Dict>)
    reads set p | p in ps
    ensures h.Keys == set p | p in ps
    ensures forall p :: p in ps ==> h[p] == p.entries
  {
    map p | p in ps :: p.entries
  }

  datatype RunState = RunState(heap: map<Point, Dict>, kept: seq<Point>, error: Option<Exc>)

  /**
   * The loop of `add_features_to_points` over the objects `ps`, whose entries are
   * given by `h`.
   */
  function SanitizeRun(ps: seq<Point>, h: map<Point, Dict>, m: string): (r: RunState)
  {
    if ps == [] then RunState(h, [], None)
    else
      var (e', o) := StepPoint(if ps[0] in h then h[ps[0]] else [], m);
      var h' := h[ps[0] := e'];
      if o.Raise? then RunState(h', [], Some(o.error))
      else
        var rest := SanitizeRun(ps[1..], h', m);
        RunState(rest.heap, (if o.Keep? then [ps[0]] else []) + rest.kept, rest.error)
  }

  /** The run `rest` of the remaining points, after `kept` were already kept. */
  function Continue(kept: seq<Point>, rest: RunState): RunState
  {
    RunState(rest.heap, kept + rest.kept, rest.error)
  }

  /** How one pass of the loop advances the run: what is left to do, and what has been kept. */
  lemma SanitizeRunAdvance(ps: seq<Point>, i: nat, h: map<Point, Dict>, m: string,
                           kept: seq<Point>, run: RunState, e': Dict, o: Outcome)
    requires i < |ps| && ps[i] in h
    requires run == Continue(kept, SanitizeRun(ps[i..], h, m))
    requires (e', o) == StepPoint(h[ps[i]], m)
    ensures o.Raise? ==> run == RunState(h[ps[i] := e'], kept, Some(o.error))
    ensures !o.Raise? ==>
              run == Continue(kept + (if o.Keep? then [ps[i]] else []), SanitizeRun(ps[i + 1..], h[ps[i] := e'], m))
  {
    assert ps[i..][0] == ps[i] && ps[i..][1..] == ps[i + 1..];
  }

  /** One pass of the loop body of `add_features_to_points` on `point`. */
  method StampAndStrip(point: Point, measurement: string) returns (o: Outcome)
    modifies point
    ensures (point.entries, o) == StepPoint(old(point.entries), measurement)
  {
    point.entries := Set(point.entries, "measurement", Str(measurement));
    var fields := Lookup(point.entries, "fields");
    if fields.None? {
      return Raise(KeyError);
    }
    if !fields.value.Object? {
      return Raise(AttributeError);
    }
    var keysToRemove := NullKeys(fields.value.entries);
    ghost var e1 := point.entries;
    var k := 0;
    while k < |keysToRemove|
      invariant 0 <= k <= |keysToRemove|
      invariant DeleteKeys(point.entries, keysToRemove[k..]) == DeleteKeys(e1, keysToRemove)
    {
      assert keysToRemove[k..][0] == keysToRemove[k] && keysToRemove[k..][1..] == keysToRemove[k + 1..];
      if !HasKey(point.entries, keysToRemove[k]) {
        return Raise(KeyError);
      }
      point.entries := Remove(point.entries, keysToRemove[k]);
      k := k + 1;
    }
    assert keysToRemove[k..] == [];
    var fields2 := Lookup(point.entries, "fields");
    if fields2.None? {
      return Raise(KeyError);
    }
    o := if Truthy(fields2.value) then Keep else Drop;
  }

  /** Changing the entries of one point of the list changes only its entry in the snapshot. */
  lemma SnapshotUpdate(ps: seq<Point>, q: Point, before: map<Point, Dict>)
    requires q in ps && before.Keys == set p | p in ps
    requires forall p :: p in ps && p != q ==> p.entries == before[p]
    ensures Snapshot(ps) == before[q := q.entries]
  {
  }

  /** `add_features_to_points(points, measurement)`. */
  method AddFeaturesToPoints(points: seq<Point>, measurement: string) returns (r: Result<seq<Point>>)
    modifies set p | p in points
    ensures var run := SanitizeRun(points, old(Snapshot(points)), measurement);
            Snapshot(points) == run.heap &&
            (run.error.None? ==> r == Ok(run.kept)) &&
            (run.error.Some? ==> r == Err(run.error.value))
  {
    ghost var run := SanitizeRun(points, Snapshot(points), measurement);
    ghost var cur := Snapshot(points);
    assert points[0..] == points;
    var validPoints: seq<Point> := [];
    var i := 0;
    while i < |points|
      invariant 0 <= i <= |points|
      invariant Snapshot(points) == cur
      invariant run == Continue(validPoints, SanitizeRun(points[i..], cur, measurement))
    {
      var point := points[i];
      var o := StampAndStrip(point, measurement);
      assert forall p :: p in points && p != point ==> p.entries == cur[p];
      SnapshotUpdate(points, point, cur);
      SanitizeRunAdvance(points, i, cur, measurement, validPoints, run, point.entries, o);
      cur := cur[point := point.entries];
      if o.Raise? {
        return Err(o.error);
      }
      if o.Keep? {
        validPoints := validPoints + [point];
      } else {
        assert validPoints + [] == validPoints;
      }
      i := i + 1;
    }
    assert points[i..] == [];
    assert run == RunState(cur, validPoints, None);
    r := Ok(validPoints);
  }
}
