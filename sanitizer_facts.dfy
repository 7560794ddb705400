/**
 * What `add_features_to_points` (src/grafcan/files/write_last_observations.py:68-98)
 * does to a point and to a list of points, proved about the functions that
 * specify it.
 */
module SanitizerFacts {
  import opened Values
  import opened Sanitizer

  // ---------------------------------------------------------------------------
  // The key list and the deletions

  /** No element occurs twice. */
  predicate Distinct<T(==)>(s: seq<T>)
  {
    forall i, j :: 0 <= i < j < |s| ==> s[i] != s[j]
  }

  /** The deletion list holds exactly the field names whose value is `None`. */
  lemma {:induction false} NullKeysMembers(f: Dict)
    ensures forall k :: k in NullKeys(f) <==> exists i :: 0 <= i < |f| && f[i].key == k && f[i].val == Null
  {
    if f != [] {
      NullKeysMembers(f[1..]);
      forall k | k in NullKeys(f[1..])
        ensures exists i :: 0 <= i < |f| && f[i].key == k && f[i].val == Null
      {
        var i :| 0 <= i < |f[1..]| && f[1..][i].key == k && f[1..][i].val == Null;
        assert f[i + 1] == f[1..][i];
      }
      forall k | exists i :: 0 <= i < |f| && f[i].key == k && f[i].val == Null
        ensures k in NullKeys(f)
      {
        var i :| 0 <= i < |f| && f[i].key == k && f[i].val == Null;
        if i > 0 {
          assert f[1..][i - 1] == f[i];
        }
      }
    }
  }

  /** A field name occurs once in the deletion list when the fields map holds it once. */
  lemma {:induction false} NullKeysDistinct(f: Dict)
    requires DistinctKeys(f)
    ensures Distinct(NullKeys(f))
  {
    if f != [] {
      assert DistinctKeys(f[1..]) by {
        forall i, j | 0 <= i < j < |f[1..]| ensures f[1..][i].key != f[1..][j].key {
          assert f[1..][i] == f[i + 1] && f[1..][j] == f[j + 1];
        }
      }
      NullKeysDistinct(f[1..]);
      NullKeysMembers(f[1..]);
      var rest := NullKeys(f[1..]);
      if f[0].val == Null {
        assert f[0].key !in rest by {
          forall i | 0 <= i < |f[1..]| ensures f[1..][i].key != f[0].key {
            assert f[1..][i] == f[i + 1];
          }
        }
        var ks := NullKeys(f);
        assert ks == [f[0].key] + rest;
        forall i, j | 0 <= i < j < |ks| ensures ks[i] != ks[j] {
          assert ks[j] == rest[j - 1];
          if i > 0 {
            assert ks[i] == rest[i - 1];
          }
        }
      } else {
        assert NullKeys(f) == rest;
      }
    }
  }

  /** After deleting every key of `keys`, those keys are gone and the others are untouched. */
  lemma {:induction false} RemoveAllLookup(d: Dict, keys: seq<string>)
    ensures forall j :: Lookup(RemoveAll(d, keys), j) == if j in keys then None else Lookup(d, j)
    decreases |keys|
  {
    if keys != [] {
      RemoveProperties(d, keys[0]);
      RemoveAllLookup(Remove(d, keys[0]), keys[1..]);
      assert forall j :: j in keys <==> j == keys[0] || j in keys[1..];
    }
  }

  /** The deletion loop either deletes every key, or stops at the first key that is absent, keeping the deletions made before it. */
  lemma {:induction false} DeleteKeysRuns(d: Dict, keys: seq<string>)
    ensures DeleteKeys(d, keys).1 ==> DeleteKeys(d, keys).0 == RemoveAll(d, keys)
    ensures !DeleteKeys(d, keys).1 ==>
              exists n :: 0 <= n < |keys| && DeleteKeys(d, keys).0 == RemoveAll(d, keys[..n]) &&
                          !HasKey(RemoveAll(d, keys[..n]), keys[n])
    decreases |keys|
  {
    if keys != [] {
      if !HasKey(d, keys[0]) {
        assert keys[..0] == [];
      } else {
        var d1 := Remove(d, keys[0]);
        DeleteKeysRuns(d1, keys[1..]);
        if !DeleteKeys(d1, keys[1..]).1 {
          var n :| 0 <= n < |keys[1..]| && DeleteKeys(d1, keys[1..]).0 == RemoveAll(d1, keys[1..][..n]) &&
                   !HasKey(RemoveAll(d1, keys[1..][..n]), keys[1..][n]);
          assert keys[..n + 1][0] == keys[0] && keys[..n + 1][1..] == keys[1..][..n];
          assert RemoveAll(d, keys[..n + 1]) == RemoveAll(d1, keys[1..][..n]);
        }
      }
    }
  }

  /** With no key listed twice, the deletion loop completes exactly when every listed key is present. */
  lemma {:induction false} DeleteKeysCompletes(d: Dict, keys: seq<string>)
    requires Distinct(keys)
    ensures DeleteKeys(d, keys).1 <==> forall k :: k in keys ==> HasKey(d, k)
    decreases |keys|
  {
    if keys != [] {
      var d1 := Remove(d, keys[0]);
      RemoveProperties(d, keys[0]);
      assert Distinct(keys[1..]) by {
        forall i, j | 0 <= i < j < |keys[1..]| ensures keys[1..][i] != keys[1..][j] {
          assert keys[1..][i] == keys[i + 1] && keys[1..][j] == keys[j + 1];
        }
      }
      DeleteKeysCompletes(d1, keys[1..]);
      assert keys[0] !in keys[1..] by {
        forall j | 0 <= j < |keys[1..]| ensures keys[1..][j] != keys[0] {
          assert keys[1..][j] == keys[j + 1];
        }
      }
      assert forall k :: k in keys <==> k == keys[0] || k in keys[1..];
    }
  }

  // ---------------------------------------------------------------------------
  // One point

  /** The value under `"fields"` before the loop body runs. */
  function Fields(e: Dict): Option<Value>
  {
    Lookup(e, "fields")
  }

  /**
   * The exception classes the loop body can raise: `KeyError` when `"fields"` is
   * missing, `AttributeError` when it is not a dictionary, and otherwise only
   * `KeyError` from a deleted or missing key.
   */
  lemma StepPointFailures(e: Dict, m: string)
    ensures Fields(e).None? ==> StepPoint(e, m).1 == Raise(KeyError)
    ensures Fields(e).Some? && !Fields(e).value.Object? ==> StepPoint(e, m).1 == Raise(AttributeError)
    ensures Fields(e).Some? && Fields(e).value.Object? && StepPoint(e, m).1.Raise? ==> StepPoint(e, m).1.error == KeyError
  {
    SetProperties(e, "measurement", Str(m));
  }

  /** Every point is stamped with the measurement, and it stays unless a `None` field of that name deletes it. */
  lemma StepPointStamps(e: Dict, m: string)
    requires Fields(e).Some? && Fields(e).value.Object? ==> "measurement" !in NullKeys(Fields(e).value.entries)
    ensures Lookup(StepPoint(e, m).0, "measurement") == Some(Str(m))
  {
    var e1 := Set(e, "measurement", Str(m));
    SetProperties(e, "measurement", Str(m));
    if Fields(e).Some? && Fields(e).value.Object? {
      var keys := NullKeys(Fields(e).value.entries);
      DeleteKeysRuns(e1, keys);
      if DeleteKeys(e1, keys).1 {
        RemoveAllLookup(e1, keys);
      } else {
        var n :| 0 <= n < |keys| && DeleteKeys(e1, keys).0 == RemoveAll(e1, keys[..n]) && !HasKey(RemoveAll(e1, keys[..n]), keys[n]);
        RemoveAllLookup(e1, keys[..n]);
        assert "measurement" !in keys[..n];
      }
    }
  }

  /**
   * When the loop body returns normally, every `None` field name has been deleted
   * as a TOP-LEVEL key, the measurement is stamped, every other key is untouched,
   * `"fields"` itself is unchanged, and the point is kept exactly when `"fields"` is
   * non-empty.
   */
  lemma StepPointSuccess(e: Dict, m: string)
    requires !StepPoint(e, m).1.Raise?
    ensures Fields(e).Some? && Fields(e).value.Object?
    ensures var ks := NullKeys(Fields(e).value.entries);
            forall j :: Lookup(StepPoint(e, m).0, j) ==
                          if j in ks then None else if j == "measurement" then Some(Str(m)) else Lookup(e, j)
    ensures Fields(StepPoint(e, m).0) == Fields(e)
    ensures StepPoint(e, m).1.Keep? <==> Fields(e).value.entries != []
  {
    StepPointFailures(e, m);
    var e1 := Set(e, "measurement", Str(m));
    SetProperties(e, "measurement", Str(m));
    assert Lookup(e1, "fields") == Fields(e);
    var keys := NullKeys(Fields(e).value.entries);
    var (e2, completed) := DeleteKeys(e1, keys);
    assert completed;
    DeleteKeysRuns(e1, keys);
    assert e2 == RemoveAll(e1, keys);
    RemoveAllLookup(e1, keys);
    assert "fields" !in keys;
    assert StepPoint(e, m) == (e2, if Truthy(Fields(e).value) then Keep else Drop);
  }

  /**
   * For a well-formed fields map (no key twice), the loop body returns normally
   * exactly when every `None` field name is a top-level key of the stamped point and
   * `"fields"` is not one of them.
   */
  lemma StepPointReturns(e: Dict, m: string)
    requires Fields(e).Some? && Fields(e).value.Object? && DistinctKeys(Fields(e).value.entries)
    ensures var ks := NullKeys(Fields(e).value.entries);
            !StepPoint(e, m).1.Raise? <==>
              (forall k :: k in ks ==> HasKey(e, k) || k == "measurement") && "fields" !in ks
  {
    var e1 := Set(e, "measurement", Str(m));
    SetProperties(e, "measurement", Str(m));
    assert Lookup(e1, "fields") == Fields(e);
    var keys := NullKeys(Fields(e).value.entries);
    NullKeysDistinct(Fields(e).value.entries);
    DeleteKeysCompletes(e1, keys);
    assert (forall k :: k in keys ==> HasKey(e1, k)) <==> (forall k :: k in keys ==> HasKey(e, k) || k == "measurement");
    var (e2, completed) := DeleteKeys(e1, keys);
    if completed {
      DeleteKeysRuns(e1, keys);
      RemoveAllLookup(e1, keys);
      assert Lookup(e2, "fields").None? <==> "fields" in keys;
    }
  }

  /**
   * When a `None` field name is not a top-level key, `KeyError` escapes, and the
   * deletions made before reaching it remain in the point.
   */
  lemma StepPointPartial(e: Dict, m: string)
    requires Fields(e).Some? && Fields(e).value.Object?
    requires !DeleteKeys(Set(e, "measurement", Str(m)), NullKeys(Fields(e).value.entries)).1
    ensures StepPoint(e, m).1 == Raise(KeyError)
    ensures var ks := NullKeys(Fields(e).value.entries);
            exists n :: 0 <= n < |ks| && StepPoint(e, m).0 == RemoveAll(Set(e, "measurement", Str(m)), ks[..n]) &&
                        !HasKey(StepPoint(e, m).0, ks[n])
  {
    var e1 := Set(e, "measurement", Str(m));
    var keys := NullKeys(Fields(e).value.entries);
    SetProperties(e, "measurement", Str(m));
    assert Lookup(e1, "fields") == Fields(e);
    var e2 := DeleteKeys(e1, keys).0;
    assert StepPoint(e, m) == (e2, Raise(KeyError));
    DeleteKeysRuns(e1, keys);
    var n :| 0 <= n < |keys| && e2 == RemoveAll(e1, keys[..n]) && !HasKey(RemoveAll(e1, keys[..n]), keys[n]);
    assert !HasKey(e2, keys[n]);
  }

  /** A point with one reading and one `None` reading raises `KeyError`: the `None` field is not a top-level key. */
  lemma NullReadingPointRaises(m: string)
    ensures var point := [Entry("fields", Object([Entry("temperature", Num(21.5)), Entry("humidity", Null)]))];
            StepPoint(point, m).1 == Raise(KeyError)
  {
    var f := [Entry("temperature", Num(21.5)), Entry("humidity", Null)];
    var point := [Entry("fields", Object(f))];
    SetProperties(point, "measurement", Str(m));
    assert NullKeys(f) == ["humidity"] by {
      assert f[1..] == [Entry("humidity", Null)];
      assert f[1..][1..] == [];
    }
    var e1 := Set(point, "measurement", Str(m));
    assert Lookup(e1, "humidity") == Lookup(point, "humidity") == None by {
      assert point[1..] == [];
    }
    StepPointFailures(point, m);
  }

  // ---------------------------------------------------------------------------
  // A list of points

  /** The position of the first point whose loop body raises, or `|es|` when none does. */
  function FirstRaise(es: seq<Dict>, m: string): (n: nat)
    ensures n <= |es|
    ensures forall i :: 0 <= i < n ==> !StepPoint(es[i], m).1.Raise?
    ensures n < |es| ==> StepPoint(es[n], m).1.Raise?
  {
    if es == [] then 0
    else if StepPoint(es[0], m).1.Raise? then 0
    else 1 + FirstRaise(es[1..], m)
  }

  /**
   * The loop visits the points in order: every point before the first exception is
   * stamped and stripped, the point that raises keeps what was done to it before the
   * exception, and every later point is untouched.
   */
  lemma SanitizeListInOrder(es: seq<Dict>, m: string)
    ensures var r, n := SanitizeList(es, m), FirstRaise(es, m);
            (forall i :: 0 <= i < n ==> r.finals[i] == StepPoint(es[i], m).0) &&
            (n == |es| ==> r.error.None? && forall i :: 0 <= i < |es| ==> r.keep[i] == StepPoint(es[i], m).1.Keep?) &&
            (n < |es| ==> r.error == Some(StepPoint(es[n], m).1.error) && r.finals[n] == StepPoint(es[n], m).0 &&
                          r.finals[n + 1..] == es[n + 1..])
  {
    SanitizeListFinals(es, m);
    SanitizeListKeeps(es, m);
    SanitizeListRaises(es, m);
  }

  /** One pass that does not raise: the run is that point's result followed by the run of the rest. */
  lemma SanitizeListCons(es: seq<Dict>, m: string)
    requires es != [] && !StepPoint(es[0], m).1.Raise?
    ensures var r, rest := SanitizeList(es, m), SanitizeList(es[1..], m);
            r.finals == [StepPoint(es[0], m).0] + rest.finals && r.keep == [StepPoint(es[0], m).1.Keep?] + rest.keep &&
            r.error == rest.error && FirstRaise(es, m) == 1 + FirstRaise(es[1..], m)
  {
  }

  lemma {:induction false} SanitizeListFinals(es: seq<Dict>, m: string)
    ensures forall i :: 0 <= i < FirstRaise(es, m) ==> SanitizeList(es, m).finals[i] == StepPoint(es[i], m).0
  {
    if es != [] && !StepPoint(es[0], m).1.Raise? {
      SanitizeListFinals(es[1..], m);
      SanitizeListCons(es, m);
      var r, rest := SanitizeList(es, m), SanitizeList(es[1..], m);
      forall i | 0 <= i < FirstRaise(es, m) ensures r.finals[i] == StepPoint(es[i], m).0 {
        if i > 0 {
          assert r.finals[i] == rest.finals[i - 1] && es[1..][i - 1] == es[i];
        }
      }
    }
  }

  lemma {:induction false} SanitizeListKeeps(es: seq<Dict>, m: string)
    ensures FirstRaise(es, m) == |es| ==>
              SanitizeList(es, m).error.None? &&
              forall i :: 0 <= i < |es| ==> SanitizeList(es, m).keep[i] == StepPoint(es[i], m).1.Keep?
  {
    if es != [] && !StepPoint(es[0], m).1.Raise? {
      SanitizeListKeeps(es[1..], m);
      SanitizeListCons(es, m);
      var r, rest := SanitizeList(es, m), SanitizeList(es[1..], m);
      if FirstRaise(es, m) == |es| {
        forall i | 0 <= i < |es| ensures r.keep[i] == StepPoint(es[i], m).1.Keep? {
          if i > 0 {
            assert r.keep[i] == rest.keep[i - 1] && es[1..][i - 1] == es[i];
          }
        }
      }
    }
  }

  lemma {:induction false} SanitizeListRaises(es: seq<Dict>, m: string)
    ensures var r, n := SanitizeList(es, m), FirstRaise(es, m);
            n < |es| ==> r.error == Some(StepPoint(es[n], m).1.error) && r.finals[n] == StepPoint(es[n], m).0 &&
                         r.finals[n + 1..] == es[n + 1..]
  {
    if es != [] && !StepPoint(es[0], m).1.Raise? {
      SanitizeListRaises(es[1..], m);
      SanitizeListCons(es, m);
      var r, rest, n := SanitizeList(es, m), SanitizeList(es[1..], m), FirstRaise(es, m);
      if n < |es| {
        assert es[1..][n - 1] == es[n];
        assert r.finals[n + 1..] == rest.finals[n..];
        assert es[1..][n..] == es[n + 1..];
      }
    }
  }

  /**
   * On normal return, the kept points are those whose `"fields"` map is non-empty,
   * and no point's `"fields"` map has changed.
   */
  lemma SanitizeListKept(es: seq<Dict>, m: string)
    requires SanitizeList(es, m).error.None?
    ensures forall i :: 0 <= i < |es| ==> Fields(es[i]).Some? && Fields(es[i]).value.Object?
    ensures forall i :: 0 <= i < |es| ==> SanitizeList(es, m).keep[i] == (Fields(es[i]).value.entries != [])
    ensures forall i :: 0 <= i < |es| ==> Fields(SanitizeList(es, m).finals[i]) == Fields(es[i])
  {
    SanitizeListInOrder(es, m);
    assert FirstRaise(es, m) == |es|;
    forall i | 0 <= i < |es|
      ensures Fields(es[i]).Some? && Fields(es[i]).value.Object?
      ensures SanitizeList(es, m).keep[i] == (Fields(es[i]).value.entries != [])
      ensures Fields(SanitizeList(es, m).finals[i]) == Fields(es[i])
    {
      StepPointSuccess(es[i], m);
    }
  }

  /**
   * Every point the loop reached, including dropped points and the point that
   * raised, carries the measurement, unless a `None` field named "measurement"
   * deleted it again.
   */
  lemma SanitizeListStamps(es: seq<Dict>, m: string)
    ensures forall i :: 0 <= i < |es| && i <= FirstRaise(es, m) &&
                        (Fields(es[i]).Some? && Fields(es[i]).value.Object? ==> "measurement" !in NullKeys(Fields(es[i]).value.entries)) ==>
              Lookup(SanitizeList(es, m).finals[i], "measurement") == Some(Str(m))
  {
    SanitizeListInOrder(es, m);
    forall i | 0 <= i < |es| && i <= FirstRaise(es, m) &&
               (Fields(es[i]).Some? && Fields(es[i]).value.Object? ==> "measurement" !in NullKeys(Fields(es[i]).value.entries))
      ensures Lookup(SanitizeList(es, m).finals[i], "measurement") == Some(Str(m))
    {
      StepPointStamps(es[i], m);
    }
  }

  // ---------------------------------------------------------------------------
  // Point objects that are all distinct

  /** The entries of the points `ps` in the snapshot `h`. */
  function EntriesOf(ps: seq<Point>, h: map<Point, Dict>): (es: seq<Dict>)
    requires forall i :: 0 <= i < |ps| ==> ps[i] in h
    ensures |es| == |ps|
    ensures forall i :: 0 <= i < |ps| ==> es[i] == h[ps[i]]
  {
    seq(|ps|, i requires 0 <= i < |ps| => h[ps[i]])
  }

  /**
   * When no point occurs twice in the list, the run over the objects is the run
   * over their dictionaries: each point ends with its own final entries, the
   * returned list is the kept points in order, and points outside the list are
   * untouched.
   */
  lemma {:induction false} SanitizeRunDistinct(ps: seq<Point>, h: map<Point, Dict>, m: string)
    requires forall i :: 0 <= i < |ps| ==> ps[i] in h
    requires forall i, j :: 0 <= i < j < |ps| ==> ps[i] != ps[j]
    ensures RunMatches(ps, h, m)
  {
    if ps != [] {
      var (e', o) := StepPoint(h[ps[0]], m);
      if o.Raise? {
        RaisingRunMatches(ps, h, m);
      } else {
        DistinctTail(ps, h, e');
        SanitizeRunDistinct(ps[1..], h[ps[0] := e'], m);
        RunMatchesCons(ps, h, m);
      }
    }
  }

  /** The run over the objects agrees with the run over their dictionaries, and leaves the other points alone. */
  predicate RunMatches(ps: seq<Point>, h: map<Point, Dict>, m: string)
    requires forall i :: 0 <= i < |ps| ==> ps[i] in h
  {
    var run, r := SanitizeRun(ps, h, m), SanitizeList(EntriesOf(ps, h), m);
    (forall i :: 0 <= i < |ps| ==> ps[i] in run.heap && run.heap[ps[i]] == r.finals[i]) &&
    run.kept == Select(ps, r.keep) &&
    run.error == r.error &&
    (forall p :: p in h && p !in ps ==> p in run.heap && run.heap[p] == h[p])
  }

  /** A run whose first point raises agrees with the list run. */
  lemma RaisingRunMatches(ps: seq<Point>, h: map<Point, Dict>, m: string)
    requires ps != [] && forall i :: 0 <= i < |ps| ==> ps[i] in h
    requires forall i, j :: 0 <= i < j < |ps| ==> ps[i] != ps[j]
    requires StepPoint(h[ps[0]], m).1.Raise?
    ensures RunMatches(ps, h, m)
  {
    var es := EntriesOf(ps, h);
    var r := SanitizeList(es, m);
    forall i | 0 <= i < |ps| ensures SanitizeRun(ps, h, m).heap[ps[i]] == r.finals[i] {
      if i > 0 {
        assert ps[i] != ps[0];
        assert r.finals[i] == es[1..][i - 1];
      }
    }
    SelectNone(ps, r.keep);
  }

  /** A run whose first point returns agrees with the list run when the run of the other points does. */
  lemma RunMatchesCons(ps: seq<Point>, h: map<Point, Dict>, m: string)
    requires ps != [] && forall i :: 0 <= i < |ps| ==> ps[i] in h
    requires forall i, j :: 0 <= i < j < |ps| ==> ps[i] != ps[j]
    requires !StepPoint(h[ps[0]], m).1.Raise?
    requires var h' := h[ps[0] := StepPoint(h[ps[0]], m).0];
             (forall i :: 0 <= i < |ps[1..]| ==> ps[1..][i] in h') && RunMatches(ps[1..], h', m)
    ensures RunMatches(ps, h, m)
  {
    var (e', o) := StepPoint(h[ps[0]], m);
    var h' := h[ps[0] := e'];
    DistinctTail(ps, h, e');
    var es := EntriesOf(ps, h);
    var r, rest := SanitizeList(es, m), SanitizeList(es[1..], m);
    assert r.finals == [e'] + rest.finals && r.keep == [o.Keep?] + rest.keep;
    var run := SanitizeRun(ps, h, m);
    forall i | 0 <= i < |ps| ensures ps[i] in run.heap && run.heap[ps[i]] == r.finals[i] {
      if i > 0 {
        assert ps[1..][i - 1] == ps[i];
        assert r.finals[i] == rest.finals[i - 1];
      }
    }
    assert Select(ps, r.keep) == (if o.Keep? then [ps[0]] else []) + Select(ps[1..], rest.keep);
    forall p | p in h && p !in ps ensures p in run.heap && run.heap[p] == h[p] {
      assert p !in ps[1..] && p != ps[0];
    }
  }

  /** The tail of a list of distinct points is one as well, in the snapshot after the head was updated. */
  lemma DistinctTail(ps: seq<Point>, h: map<Point, Dict>, e: Dict)
    requires ps != []
    requires forall i :: 0 <= i < |ps| ==> ps[i] in h
    requires forall i, j :: 0 <= i < j < |ps| ==> ps[i] != ps[j]
    ensures forall i :: 0 <= i < |ps[1..]| ==> ps[1..][i] in h[ps[0] := e]
    ensures forall i, j :: 0 <= i < j < |ps[1..]| ==> ps[1..][i] != ps[1..][j]
    ensures ps[0] !in ps[1..]
    ensures EntriesOf(ps[1..], h[ps[0] := e]) == EntriesOf(ps, h)[1..]
  {
    forall i, j | 0 <= i < j < |ps[1..]| ensures ps[1..][i] != ps[1..][j] {
      assert ps[1..][i] == ps[i + 1] && ps[1..][j] == ps[j + 1];
    }
    forall j | 0 <= j < |ps[1..]| ensures ps[1..][j] != ps[0] {
      assert ps[1..][j] == ps[j + 1];
    }
    forall i | 0 <= i < |ps[1..]| ensures EntriesOf(ps[1..], h[ps[0] := e])[i] == EntriesOf(ps, h)[1..][i] {
      assert ps[1..][i] == ps[i + 1] != ps[0];
    }
  }

  lemma {:induction false} SelectNone<T>(s: seq<T>, flags: seq<bool>)
    requires |flags| == |s| && forall i :: 0 <= i < |s| ==> !flags[i]
    ensures Select(s, flags) == []
  {
    if s != [] {
      SelectNone(s[1..], flags[1..]);
    }
  }
}
