/**
 * `FetchObservationsLast` (src/grafcan/classes/FetchObservationsLast.py):
 * the column naming of an observation and the pivot that turns the list of
 * observations returned by the API into a table with one row per result time
 * and one column per measured quantity.  The HTTP request (`_get_response`) is
 * a collaborator: its answer, or `None`, is an argument.
 */
module ObservationsLast {
  import opened Values
  import opened Text

  /** The characters `_clean_column_name` deletes after lowering. */
  const Deleted: set<char> := {'.', '(', ')', '°'}

  /** `name.lower().replace(" ", "_").replace(".", "").replace("(", "").replace(")", "").replace("°", "")`. */
  function CleanChain(name: string): string
  {
    ReplaceChar(ReplaceChar(ReplaceChar(ReplaceChar(ReplaceChar(Lower(name), ' ', "_"), '.', ""), '(', ""), ')', ""), '°', "")
  }

  /** What the chain makes of one character. */
  function CleanChar(x: char): string
  {
    if x == ' ' then "_" else if x in Deleted then "" else [LowerChar(x)]
  }

  /** `_clean_column_name(name)`. */
  function CleanColumnName(name: string): (r: string)
    ensures Avoids(r, Deleted + {' '}) && NoUpper(r)
    ensures |r| == |name| - multiset(name)['.'] - multiset(name)['('] - multiset(name)[')'] - multiset(name)['°']
    ensures CleanChain(r) == r
  {
    CleanClean(name);
    CleanLength(name);
    CleanIdempotent(name);
    CleanChain(name)
  }

  lemma CleanChainConcat(a: string, b: string)
    ensures CleanChain(a + b) == CleanChain(a) + CleanChain(b)
  {
    LowerConcat(a, b);
    var a0, b0 := Lower(a), Lower(b);
    ReplaceCharConcat(a0, b0, ' ', "_");
    var a1, b1 := ReplaceChar(a0, ' ', "_"), ReplaceChar(b0, ' ', "_");
    ReplaceCharConcat(a1, b1, '.', "");
    var a2, b2 := ReplaceChar(a1, '.', ""), ReplaceChar(b1, '.', "");
    ReplaceCharConcat(a2, b2, '(', "");
    var a3, b3 := ReplaceChar(a2, '(', ""), ReplaceChar(b2, '(', "");
    ReplaceCharConcat(a3, b3, ')', "");
    var a4, b4 := ReplaceChar(a3, ')', ""), ReplaceChar(b3, ')', "");
    ReplaceCharConcat(a4, b4, '°', "");
  }

  lemma CleanChainSingle(x: char)
    ensures CleanChain([x]) == CleanChar(x)
  {
    var l := LowerChar(x);
    assert Lower([x]) == [l];
    assert l == ' ' <==> x == ' ';
    assert l in Deleted <==> x in Deleted;
    ReplaceCharSingle(l, ' ', "_");
    if x == ' ' {
      ReplaceCharSingle('_', '.', "");
      ReplaceCharSingle('_', '(', "");
      ReplaceCharSingle('_', ')', "");
      ReplaceCharSingle('_', '°', "");
    } else if x in Deleted {
      ReplaceCharSingle(l, '.', "");
      if l != '.' {
        ReplaceCharSingle(l, '(', "");
        if l != '(' {
          ReplaceCharSingle(l, ')', "");
          if l != ')' {
            ReplaceCharSingle(l, '°', "");
          }
        }
      }
    } else {
      ReplaceCharSingle(l, '.', "");
      ReplaceCharSingle(l, '(', "");
      ReplaceCharSingle(l, ')', "");
      ReplaceCharSingle(l, '°', "");
    }
  }

  lemma CleanChainCons(s: string)
    requires s != []
    ensures CleanChain(s) == CleanChar(s[0]) + CleanChain(s[1..])
  {
    assert s == [s[0]] + s[1..];
    CleanChainConcat([s[0]], s[1..]);
    CleanChainSingle(s[0]);
  }

  /** No space, dot, parenthesis or degree sign, and no upper-case letter, is left. */
  lemma {:induction false} CleanClean(s: string)
    ensures Avoids(CleanChain(s), Deleted + {' '}) && NoUpper(CleanChain(s))
  {
    if s != [] {
      CleanChainCons(s);
      CleanClean(s[1..]);
    }
  }

  /** Only the deleted characters shorten the name; a space becomes one underscore. */
  lemma {:induction false} CleanLength(s: string)
    ensures |CleanChain(s)| == |s| - multiset(s)['.'] - multiset(s)['('] - multiset(s)[')'] - multiset(s)['°']
  {
    if s != [] {
      var t := s[1..];
      CleanChainCons(s);
      CleanLength(t);
      CleanCharLength(s[0]);
      assert s == [s[0]] + t;
      var m, m0, m1 := multiset(s), multiset{s[0]}, multiset(t);
      assert m == m0 + m1;
      assert m['.'] == m0['.'] + m1['.'] && m['('] == m0['('] + m1['('];
      assert m[')'] == m0[')'] + m1[')'] && m['°'] == m0['°'] + m1['°'];
      assert |CleanChain(s)| == |CleanChar(s[0])| + |CleanChain(t)|;
    }
  }

  lemma CleanCharLength(x: char)
    ensures |CleanChar(x)| == 1 - multiset{x}['.'] - multiset{x}['('] - multiset{x}[')'] - multiset{x}['°']
  {
  }

  lemma {:induction false} CleanFixesClean(t: string)
    requires Avoids(t, Deleted + {' '}) && NoUpper(t)
    ensures CleanChain(t) == t
  {
    if t != [] {
      CleanChainCons(t);
      CleanFixesClean(t[1..]);
      assert t == [t[0]] + t[1..];
    }
  }

  /** Cleaning a cleaned name changes nothing. */
  lemma CleanIdempotent(s: string)
    ensures CleanChain(CleanChain(s)) == CleanChain(s)
  {
    CleanClean(s);
    CleanFixesClean(CleanChain(s));
  }

  // ---------------------------------------------------------------------------
  // _parse_observations

  /** The columns `_parse_observations` selects from the observation frame. */
  const Selected: seq<string> := ["name", "value", "unitOfMeasurement", "resultTime"]

  /** The frame built from the observations has column `c` when some observation has key `c`. */
  predicate HasColumn(obs: seq<Dict>, c: string)
  {
    exists i :: 0 <= i < |obs| && HasKey(obs[i], c)
  }

  /** The cell of `df["name"] + "_" + df["unitOfMeasurement"]` for one observation. */
  datatype Joined = Joined(s: string) | Missing | Mistyped

  function JoinNameUnit(o: Dict): (j: Joined)
    ensures j.Joined? <==> Get(o, "name").Str? && Get(o, "unitOfMeasurement").Str?
    ensures j.Joined? ==> j.s == Get(o, "name").s + "_" + Get(o, "unitOfMeasurement").s
  {
    var name, unit := Get(o, "name"), Get(o, "unitOfMeasurement");
    // a missing operand propagates as a missing cell; any other non-string raises
    if name.Null? then Missing
    else if !name.Str? then Mistyped
    else if unit.Null? then Missing
    else if !unit.Str? then Mistyped
    else Joined(name.s + "_" + unit.s)
  }

  /** The column key of an observation whose name and unit are strings. */
  function ObservationKey(o: Dict): string
    requires JoinNameUnit(o).Joined?
  {
    CleanColumnName(JoinNameUnit(o).s)
  }

  /** The column keys of all observations: the concatenation fails as a whole before any cleaning. */
  function ColumnKeys(obs: seq<Dict>): (r: Result<seq<string>>)
    ensures r.Ok? <==> forall i :: 0 <= i < |obs| ==> JoinNameUnit(obs[i]).Joined?
    ensures r.Ok? ==> |r.value| == |obs| && forall i :: 0 <= i < |obs| ==> r.value[i] == ObservationKey(obs[i])
    ensures r.Err? ==> r.error == TypeError || r.error == AttributeError
  {
    if exists i :: 0 <= i < |obs| && JoinNameUnit(obs[i]).Mistyped? then Err(TypeError)
    // `apply(_clean_column_name)` reaches a missing cell, which has no `lower`
    else if exists i :: 0 <= i < |obs| && JoinNameUnit(obs[i]).Missing? then Err(AttributeError)
    else Ok(seq(|obs|, i requires 0 <= i < |obs| => ObservationKey(obs[i])))
  }

  /** One entry of the pivot's input: index value, column key, cell value. */
  datatype Cell = Cell(time: Value, column: string, value: Value)

  predicate NoDuplicateCells(cells: seq<Cell>)
  {
    forall i, j :: 0 <= i < j < |cells| ==> (cells[i].time, cells[i].column) != (cells[j].time, cells[j].column)
  }

  /** The (index, column) pairs the cells occupy. */
  function PairsOf(cells: seq<Cell>): set<(Value, string)>
  {
    set i | 0 <= i < |cells| :: (cells[i].time, cells[i].column)
  }

  /** How duplicates and occupied pairs grow when one cell is appended. */
  lemma PivotSnoc(cells: seq<Cell>)
    requires cells != []
    ensures var n := |cells| - 1;
            var last := cells[n];
            (forall i :: 0 <= i < n ==> cells[..n][i] == cells[i]) &&
            (NoDuplicateCells(cells) <==> NoDuplicateCells(cells[..n]) && (last.time, last.column) !in PairsOf(cells[..n])) &&
            PairsOf(cells) == PairsOf(cells[..n]) + {(last.time, last.column)}
  {
    var n := |cells| - 1;
    var init, last := cells[..n], cells[n];
    assert forall i :: 0 <= i < n ==> init[i] == cells[i];
    if (last.time, last.column) in PairsOf(init) {
      var i :| 0 <= i < n && (init[i].time, init[i].column) == (last.time, last.column);
      assert (cells[i].time, cells[i].column) == (cells[n].time, cells[n].column);
    }
  }

  /** `DataFrame.pivot`: fails on a repeated (index, column) pair. */
  function PivotCells(cells: seq<Cell>): (r: Result<map<(Value, string), Value>>)
    ensures r.Ok? <==> NoDuplicateCells(cells)
    ensures r.Err? ==> r.error == ValueError
    ensures r.Ok? ==> r.value.Keys == PairsOf(cells)
    ensures r.Ok? ==> forall i :: 0 <= i < |cells| ==> r.value[(cells[i].time, cells[i].column)] == cells[i].value
  {
    if cells == [] then Ok(map[])
    else
      var last := cells[|cells| - 1];
      PivotSnoc(cells);
      match PivotCells(cells[..|cells| - 1])
      case Err(e) => Err(e)
      case Ok(m) =>
        if (last.time, last.column) in m then Err(ValueError)
        else
          assert forall i :: 0 <= i < |cells| - 1 ==> (cells[i].time, cells[i].column) in m && m[(cells[i].time, cells[i].column)] == cells[i].value;
          Ok(m[(last.time, last.column) := last.value])
  }

  /** The pivoted observation table: its row index, its columns and its non-missing cells. */
  datatype Table = Table(index: set<Value>, columns: set<string>, cells: map<(Value, string), Value>)

  const EmptyTable := Table({}, {}, map[])

  function CellsOf(obs: seq<Dict>, keys: seq<string>): (cells: seq<Cell>)
    requires |keys| == |obs|
    ensures |cells| == |obs|
    ensures forall i :: 0 <= i < |obs| ==> cells[i] == Cell(Get(obs[i], "resultTime"), keys[i], Get(obs[i], "value"))
  {
    seq(|obs|, i requires 0 <= i < |obs| => Cell(Get(obs[i], "resultTime"), keys[i], Get(obs[i], "value")))
  }

  /** Every observation has string name and unit, so each has a column key. */
  predicate Keyed(obs: seq<Dict>)
  {
    forall i :: 0 <= i < |obs| ==> JoinNameUnit(obs[i]).Joined?
  }

  /** No two observations share both result time and column key. */
  predicate DistinctCells(obs: seq<Dict>)
    requires Keyed(obs)
  {
    forall i, j :: 0 <= i < j < |obs| ==>
      (Get(obs[i], "resultTime"), ObservationKey(obs[i])) != (Get(obs[j], "resultTime"), ObservationKey(obs[j]))
  }

  /** `_parse_observations(observations)`, without the final `pd.to_datetime` of the index. */
  function ParseObservations(obs: seq<Dict>): (r: Result<Table>)
    ensures r.Ok? <==> (forall c :: c in Selected ==> HasColumn(obs, c)) && Keyed(obs) && DistinctCells(obs)
    ensures (exists c :: c in Selected && !HasColumn(obs, c)) ==> r == Err(KeyError)
    ensures r.Ok? ==> r.value.index == set i | 0 <= i < |obs| :: Get(obs[i], "resultTime")
    ensures r.Ok? ==> r.value.columns == set i | 0 <= i < |obs| :: ObservationKey(obs[i])
    ensures r.Ok? ==> r.value.cells.Keys == set i | 0 <= i < |obs| :: (Get(obs[i], "resultTime"), ObservationKey(obs[i]))
    ensures r.Ok? ==> forall i :: 0 <= i < |obs| ==>
              r.value.cells[(Get(obs[i], "resultTime"), ObservationKey(obs[i]))] == Get(obs[i], "value")
  {
    if exists c :: c in Selected && !HasColumn(obs, c) then Err(KeyError)
    else
      match ColumnKeys(obs)
      case Err(e) => Err(e)
      case Ok(keys) =>
        var cells := CellsOf(obs, keys);
        CellsOfObservations(obs, keys);
        match PivotCells(cells)
        case Err(e) => Err(e)
        case Ok(m) =>
          Ok(Table(set i | 0 <= i < |obs| :: Get(obs[i], "resultTime"),
                   set i | 0 <= i < |obs| :: keys[i],
                   m))
  }

  /** The pivot input built from keyed observations repeats a pair exactly when two observations do. */
  lemma CellsOfObservations(obs: seq<Dict>, keys: seq<string>)
    requires Keyed(obs) && |keys| == |obs|
    requires forall i :: 0 <= i < |obs| ==> keys[i] == ObservationKey(obs[i])
    ensures NoDuplicateCells(CellsOf(obs, keys)) <==> DistinctCells(obs)
    ensures var cells := CellsOf(obs, keys);
            PairsOf(cells) == (set i | 0 <= i < |obs| :: (Get(obs[i], "resultTime"), ObservationKey(obs[i])))
    ensures (set i | 0 <= i < |obs| :: keys[i]) == (set i | 0 <= i < |obs| :: ObservationKey(obs[i]))
  {
  }

  /** `fetch_last_observation(thing_id)`, given what `_get_response` returned for it. */
  function FetchLastObservation(response: Option<seq<Dict>>): (r: Result<Table>)
    ensures response.None? ==> r == Ok(EmptyTable)
    ensures response.Some? ==> r == ParseObservations(response.value)
    ensures response == Some([]) ==> r == Err(KeyError)
  {
    match response
    case None => Ok(EmptyTable)
    case Some(obs) =>
      assert "name" in Selected && !HasColumn([], "name");
      ParseObservations(obs)
  }

  /** Two readings of one quantity at one time make the pivot fail. */
  lemma DuplicateReadingFails(obs: seq<Dict>, i: nat, j: nat)
    requires i < j < |obs| && Keyed(obs)
    requires Get(obs[i], "resultTime") == Get(obs[j], "resultTime")
    requires ObservationKey(obs[i]) == ObservationKey(obs[j])
    ensures ParseObservations(obs).Err?
  {
  }
}
