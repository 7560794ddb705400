/**
 * Python/JSON values as the collector sees them: decoded API responses,
 * dictionary records and DataFrame cells.  A dictionary is an ordered list of
 * entries (Python dictionaries keep insertion order).  `Null` stands both for
 * Python's `None` and for the missing-value marker pandas puts in a cell that a
 * record does not have.
 */
module Values {

  datatype Option<T> = None | Some(value: T)

  datatype Value =
    | Null
    | Bool(b: bool)
    | Num(x: real)
    | Str(s: string)
    | List(items: seq<Value>)
    | Object(entries: seq<Entry>)

  datatype Entry = Entry(key: string, val: Value)

  type Dict = seq<Entry>

  /** The exception classes the modelled code raises, catches or lets escape. */
  datatype Exc =
    | KeyError
    | IndexError
    | TypeError
    | AttributeError
    | ValueError
    | NameError
    | GenericException   // a bare `raise Exception(...)`
    | DataFetchError     // raised by the observation fetch collaborator
    | RequestError       // any failure of an HTTP collaborator

  datatype Result<T> = Ok(value: T) | Err(error: Exc)

  /** Outcome of a collaborator call that returns nothing. */
  datatype Status = Done | Failed(error: Exc)

  /** A subscript: `v["key"]` or `v[3]`. */
  datatype Index = Key(k: string) | Pos(i: int)

  function Keys(d: Dict): (ks: seq<string>)
    ensures |ks| == |d|
    ensures forall i :: 0 <= i < |d| ==> ks[i] == d[i].key
  {
    seq(|d|, i requires 0 <= i < |d| => d[i].key)
  }

  /** `d[k]` on a dictionary, as an optional value (the first entry for `k`). */
  function Lookup(d: Dict, k: string): Option<Value>
  {
    if d == [] then None
    else if d[0].key == k then Some(d[0].val)
    else Lookup(d[1..], k)
  }

  /** `k in d`. */
  predicate HasKey(d: Dict, k: string)
  {
    Lookup(d, k).Some?
  }

  /** Python dictionaries never hold a key twice. */
  predicate DistinctKeys(d: Dict)
  {
    forall i, j :: 0 <= i < j < |d| ==> d[i].key != d[j].key
  }

  /** `d.get(k)`: the value under `k`, or `None` when there is none. */
  function Get(d: Dict, k: string): Value
  {
    match Lookup(d, k)
    case Some(v) => v
    case None => Null
  }

  /** The keys a dictionary has are the keys its entries carry. */
  lemma {:induction false} KeysHasKey(d: Dict, k: string)
    ensures HasKey(d, k) <==> k in Keys(d)
  {
    if d != [] {
      KeysHasKey(d[1..], k);
      assert Keys(d) == [d[0].key] + Keys(d[1..]);
    }
  }

  /** Lookup in a dictionary that starts with a known entry. */
  lemma LookupCons(e: Entry, d: Dict, j: string)
    ensures Lookup([e] + d, j) == if e.key == j then Some(e.val) else Lookup(d, j)
    ensures Keys([e] + d) == [e.key] + Keys(d)
  {
    assert ([e] + d)[1..] == d;
  }

  /** `d[k] = v`: overwrites the first entry for `k` in place, or appends a new one. */
  function Set(d: Dict, k: string, v: Value): Dict
  {
    if d == [] then [Entry(k, v)]
    else if d[0].key == k then [Entry(k, v)] + d[1..]
    else [d[0]] + Set(d[1..], k, v)
  }

  /** After `d[k] = v`, `k` maps to `v`, every other key is as before, and a new key goes last. */
  lemma {:induction false} SetProperties(d: Dict, k: string, v: Value)
    ensures forall j :: Lookup(Set(d, k, v), j) == if j == k then Some(v) else Lookup(d, j)
    ensures HasKey(d, k) ==> Keys(Set(d, k, v)) == Keys(d)
    ensures !HasKey(d, k) ==> Keys(Set(d, k, v)) == Keys(d) + [k]
  {
    var r := Set(d, k, v);
    if d == [] {
      forall j ensures Lookup(r, j) == if j == k then Some(v) else Lookup(d, j) {
        LookupCons(Entry(k, v), [], j);
        assert [Entry(k, v)] + [] == r;
      }
      assert Keys(r) == [k];
    } else {
      assert d == [d[0]] + d[1..];
      LookupCons(d[0], d[1..], k);
      if d[0].key == k {
        forall j ensures Lookup(r, j) == if j == k then Some(v) else Lookup(d, j) {
          LookupCons(d[0], d[1..], j);
          LookupCons(Entry(k, v), d[1..], j);
        }
        LookupCons(Entry(k, v), d[1..], k);
      } else {
        SetProperties(d[1..], k, v);
        var rest := Set(d[1..], k, v);
        forall j ensures Lookup(r, j) == if j == k then Some(v) else Lookup(d, j) {
          LookupCons(d[0], d[1..], j);
          LookupCons(d[0], rest, j);
        }
        LookupCons(d[0], rest, k);
      }
    }
  }

  /** `del d[k]` once `k` is known to be present: the dictionary without any entry for `k`. */
  function Remove(d: Dict, k: string): Dict
  {
    if d == [] then []
    else if d[0].key == k then Remove(d[1..], k)
    else [d[0]] + Remove(d[1..], k)
  }

  /** After the deletion `k` is absent, every other key is as before, and nothing was added. */
  lemma {:induction false} RemoveProperties(d: Dict, k: string)
    ensures forall j :: Lookup(Remove(d, k), j) == if j == k then None else Lookup(d, j)
    ensures |Remove(d, k)| <= |d|
  {
    if d != [] {
      RemoveProperties(d[1..], k);
      var rest := Remove(d[1..], k);
      forall j ensures Lookup(Remove(d, k), j) == if j == k then None else Lookup(d, j) {
        assert d == [d[0]] + d[1..];
        LookupCons(d[0], d[1..], j);
        LookupCons(d[0], rest, j);
      }
    }
  }

  /** Looking a key up in two dictionaries laid end to end finds the first one's entry first. */
  lemma {:induction false} LookupAppend(a: Dict, b: Dict, k: string)
    ensures Lookup(a + b, k) == if HasKey(a, k) then Lookup(a, k) else Lookup(b, k)
  {
    if a == [] {
      assert a + b == b;
    } else {
      assert (a + b)[0] == a[0];
      assert (a + b)[1..] == a[1..] + b;
      LookupAppend(a[1..], b, k);
    }
  }

  /** `v[ix]` in Python, for the kinds of value a JSON document holds. */
  function Subscript(v: Value, ix: Index): (r: Result<Value>)
    ensures v.Object? && ix.Key? ==>
              (r.Ok? <==> HasKey(v.entries, ix.k)) &&
              (r.Ok? ==> Some(r.value) == Lookup(v.entries, ix.k)) &&
              (r.Err? ==> r.error == KeyError)
    ensures v.List? && ix.Pos? ==>
              (r.Ok? <==> -|v.items| <= ix.i < |v.items|) &&
              (r.Ok? ==> r.value == v.items[if ix.i < 0 then |v.items| + ix.i else ix.i]) &&
              (r.Err? ==> r.error == IndexError)
    ensures !(v.Object? || v.List? || v.Str?) ==> r == Err(TypeError)
  {
    match v
    case Object(d) =>
      (match ix
       case Key(k) => (match Lookup(d, k) case Some(x) => Ok(x) case None => Err(KeyError))
       // JSON object keys are strings, so an integer key is never present
       case Pos(_) => Err(KeyError))
    case List(xs) =>
      (match ix
       case Pos(i) =>
         if 0 <= i < |xs| then Ok(xs[i])
         else if -|xs| <= i < 0 then Ok(xs[|xs| + i])
         else Err(IndexError)
       case Key(_) => Err(TypeError))
    case Str(s) =>
      (match ix
       case Pos(i) =>
         if 0 <= i < |s| then Ok(Str([s[i]]))
         else if -|s| <= i < 0 then Ok(Str([s[|s| + i]]))
         else Err(IndexError)
       case Key(_) => Err(TypeError))
    case _ => Err(TypeError)
  }

  /** `v.get(k)`: only dictionaries have the method. */
  function GetMethod(v: Value, k: string): (r: Result<Value>)
    ensures v.Object? <==> r.Ok?
    ensures r.Ok? ==> r.value == Get(v.entries, k)
    ensures r.Err? ==> r.error == AttributeError
  {
    if v.Object? then Ok(Get(v.entries, k)) else Err(AttributeError)
  }

  /** `for x in v`: lists yield their items, dictionaries their keys, strings their characters. */
  function Iterate(v: Value): (r: Result<seq<Value>>)
    ensures v.List? ==> r == Ok(v.items)
    ensures (v.List? || v.Object? || v.Str?) <==> r.Ok?
    ensures r.Ok? && v.Object? ==> |r.value| == |v.entries|
    ensures r.Ok? && v.Str? ==> |r.value| == |v.s|
    ensures r.Err? ==> r.error == TypeError
  {
    match v
    case List(xs) => Ok(xs)
    case Object(d) => Ok(seq(|d|, i requires 0 <= i < |d| => Str(d[i].key)))
    case Str(s) => Ok(seq(|s|, i requires 0 <= i < |s| => Str([s[i]])))
    case _ => Err(TypeError)
  }

  /** `len(v)`. */
  function Len(v: Value): (r: Result<nat>)
    ensures (v.List? || v.Object? || v.Str?) <==> r.Ok?
    ensures v.List? ==> r == Ok(|v.items|)
    ensures r.Err? ==> r.error == TypeError
  {
    match v
    case List(xs) => Ok(|xs|)
    case Object(d) => Ok(|d|)
    case Str(s) => Ok(|s|)
    case _ => Err(TypeError)
  }

  /** `add_prefix(p)`: every column name gets `p` in front of it. */
  function AddPrefix(p: string, d: Dict): (r: Dict)
    ensures |r| == |d|
    ensures forall i :: 0 <= i < |d| ==> r[i] == Entry(p + d[i].key, d[i].val)
  {
    seq(|d|, i requires 0 <= i < |d| => Entry(p + d[i].key, d[i].val))
  }

  /** A prefixed dictionary answers `p + k` as the original answers `k`, and has no key without `p` in front. */
  lemma {:induction false} LookupAddPrefix(p: string, d: Dict, c: string)
    ensures Lookup(AddPrefix(p, d), c) == if |p| <= |c| && c[..|p|] == p then Lookup(d, c[|p|..]) else None
  {
    if d != [] {
      var r := AddPrefix(p, d);
      assert r[1..] == AddPrefix(p, d[1..]);
      LookupAddPrefix(p, d[1..], c);
      var key := p + d[0].key;
      assert key[..|p|] == p && key[|p|..] == d[0].key;
      if |p| <= |c| && c[..|p|] == p {
        assert c == c[..|p|] + c[|p|..];
      }
    }
  }
}
