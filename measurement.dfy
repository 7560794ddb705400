/**
 * The Text Normalizer of the observation writer: `normalize_measurement`
 * turns a station's location name into the InfluxDB measurement name
 * (src/grafcan/files/write_last_observations.py:49-65).
 */
module Measurement {
  import opened Text

  /** The characters the chain deletes or rewrites. */
  const Stripped: set<char> := {' ', ',', '(', ')'}

  /**
   * The replacement chain applied after `normalize_text`:
   * `.replace(" ", "_").replace(",", "").lower().replace("(", "").replace(")", "")`.
   */
  function MeasurementChain(s: string): string
  {
    ReplaceChar(ReplaceChar(Lower(ReplaceChar(ReplaceChar(s, ' ', "_"), ',', "")), '(', ""), ')', "")
  }

  /** What the chain makes of one character. */
  function MeasurementChar(x: char): string
  {
    if x == ' ' then "_"
    else if x == ',' || x == '(' || x == ')' then ""
    else [LowerChar(x)]
  }

  /** `normalize_measurement(text)`. */
  function NormalizeMeasurement(text: string, unidecode: string -> string): (r: string)
    ensures Avoids(r, Stripped) && NoUpper(r)
    ensures var t := NormalizeText(text, unidecode);
            |r| == |t| - multiset(t)[','] - multiset(t)['('] - multiset(t)[')']
    ensures var t := NormalizeText(text, unidecode);
            multiset(r)['_'] == multiset(t)['_'] + multiset(t)[' ']
    ensures MeasurementChain(r) == r
  {
    var t := NormalizeText(text, unidecode);
    MeasurementClean(t);
    MeasurementLength(t);
    MeasurementUnderscores(t);
    MeasurementIdempotent(t);
    MeasurementChain(t)
  }

  lemma MeasurementChainConcat(a: string, b: string)
    ensures MeasurementChain(a + b) == MeasurementChain(a) + MeasurementChain(b)
  {
    ReplaceCharConcat(a, b, ' ', "_");
    var a1, b1 := ReplaceChar(a, ' ', "_"), ReplaceChar(b, ' ', "_");
    ReplaceCharConcat(a1, b1, ',', "");
    var a2, b2 := ReplaceChar(a1, ',', ""), ReplaceChar(b1, ',', "");
    LowerConcat(a2, b2);
    var a3, b3 := Lower(a2), Lower(b2);
    ReplaceCharConcat(a3, b3, '(', "");
    var a4, b4 := ReplaceChar(a3, '(', ""), ReplaceChar(b3, '(', "");
    ReplaceCharConcat(a4, b4, ')', "");
  }

  lemma MeasurementChainSingle(x: char)
    ensures MeasurementChain([x]) == MeasurementChar(x)
  {
    ReplaceCharSingle(x, ' ', "_");
    if x == ' ' {
      ReplaceCharSingle('_', ',', "");
      assert Lower("_") == "_";
      ReplaceCharSingle('_', '(', "");
      ReplaceCharSingle('_', ')', "");
    } else if x == ',' {
      ReplaceCharSingle(',', ',', "");
      assert ReplaceChar("", '(', "") == "";
    } else {
      ReplaceCharSingle(x, ',', "");
      var l := LowerChar(x);
      assert Lower([x]) == [l];
      ReplaceCharSingle(l, '(', "");
      if l != '(' {
        ReplaceCharSingle(l, ')', "");
      }
    }
  }

  /** The chain works character by character. */
  lemma MeasurementChainCons(s: string)
    requires s != []
    ensures MeasurementChain(s) == MeasurementChar(s[0]) + MeasurementChain(s[1..])
  {
    assert s == [s[0]] + s[1..];
    MeasurementChainConcat([s[0]], s[1..]);
    MeasurementChainSingle(s[0]);
  }

  /** The result holds no space, comma or parenthesis and no upper-case letter. */
  lemma {:induction false} MeasurementClean(s: string)
    ensures Avoids(MeasurementChain(s), Stripped) && NoUpper(MeasurementChain(s))
  {
    if s != [] {
      MeasurementChainCons(s);
      MeasurementClean(s[1..]);
    }
  }

  /** Commas and parentheses disappear; every other character stays one character. */
  lemma {:induction false} MeasurementLength(s: string)
    ensures |MeasurementChain(s)| == |s| - multiset(s)[','] - multiset(s)['('] - multiset(s)[')']
  {
    if s != [] {
      var t := s[1..];
      MeasurementChainCons(s);
      MeasurementLength(t);
      assert s == [s[0]] + t;
      var m, m0, m1 := multiset(s), multiset{s[0]}, multiset(t);
      assert m == m0 + m1;
      assert m[','] == m0[','] + m1[','] && m['('] == m0['('] + m1['('] && m[')'] == m0[')'] + m1[')'];
      assert |MeasurementChain(s)| == |MeasurementChar(s[0])| + |MeasurementChain(t)|;
      assert |MeasurementChar(s[0])| == 1 - m0[','] - m0['('] - m0[')'];
    }
  }

  /** Each space becomes exactly one underscore, and existing underscores stay. */
  lemma {:induction false} MeasurementUnderscores(s: string)
    ensures multiset(MeasurementChain(s))['_'] == multiset(s)['_'] + multiset(s)[' ']
  {
    if s != [] {
      var t := s[1..];
      MeasurementChainCons(s);
      MeasurementUnderscores(t);
      assert s == [s[0]] + t;
      var m, m0, m1 := multiset(s), multiset{s[0]}, multiset(t);
      assert m == m0 + m1;
      assert m['_'] == m0['_'] + m1['_'] && m[' '] == m0[' '] + m1[' '];
      var c, c0, c1 := MeasurementChain(s), MeasurementChar(s[0]), MeasurementChain(t);
      assert multiset(c) == multiset(c0) + multiset(c1);
      MeasurementCharUnderscores(s[0]);
    }
  }

  lemma MeasurementCharUnderscores(x: char)
    ensures multiset(MeasurementChar(x))['_'] == multiset{x}['_'] + multiset{x}[' ']
  {
    assert LowerChar(x) == '_' <==> x == '_';
  }

  /** A string the chain could have produced is left as it is. */
  lemma {:induction false} MeasurementFixesClean(t: string)
    requires Avoids(t, Stripped) && NoUpper(t)
    ensures MeasurementChain(t) == t
  {
    if t != [] {
      MeasurementChainCons(t);
      MeasurementFixesClean(t[1..]);
      assert t == [t[0]] + t[1..];
    }
  }

  /** Applying the chain to its own output changes nothing. */
  lemma MeasurementIdempotent(s: string)
    ensures MeasurementChain(MeasurementChain(s)) == MeasurementChain(s)
  {
    MeasurementClean(s);
    MeasurementFixesClean(MeasurementChain(s));
  }
}
