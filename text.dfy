/**
 * String operations the collector chains together: Python's `str.replace`
 * with a one-character pattern, `str.lower` (on ASCII letters only; other
 * characters are left as they are), and the shared
 * `normalize_text` routine of `src/common/functions.py`.
 */
module Text {

  /** `s.replace(c, t)` where `c` is a single character. */
  function ReplaceChar(s: string, c: char, t: string): string
  {
    if s == [] then [] else (if s[0] == c then t else [s[0]]) + ReplaceChar(s[1..], c, t)
  }

  predicate IsUpper(c: char)
  {
    'A' <= c <= 'Z'
  }

  function LowerChar(c: char): (l: char)
    ensures !IsUpper(l)
    ensures !IsUpper(c) ==> l == c
  {
    if IsUpper(c) then (c as int + 32) as char else c
  }

  /** `s.lower()`, restricted to ASCII letters. */
  function Lower(s: string): (r: string)
    ensures |r| == |s|
    ensures forall i :: 0 <= i < |s| ==> r[i] == LowerChar(s[i])
  {
    seq(|s|, i requires 0 <= i < |s| => LowerChar(s[i]))
  }

  /** `s` holds none of the characters in `cs`. */
  predicate Avoids(s: string, cs: set<char>)
  {
    forall i :: 0 <= i < |s| ==> s[i] !in cs
  }

  predicate NoUpper(s: string)
  {
    forall i :: 0 <= i < |s| ==> !IsUpper(s[i])
  }

  predicate IsAscii(s: string)
  {
    forall i :: 0 <= i < |s| ==> s[i] as int < 128
  }

  lemma {:induction false} ReplaceCharConcat(a: string, b: string, c: char, t: string)
    ensures ReplaceChar(a + b, c, t) == ReplaceChar(a, c, t) + ReplaceChar(b, c, t)
  {
    if a == [] {
      assert a + b == b;
    } else {
      assert (a + b)[0] == a[0];
      assert (a + b)[1..] == a[1..] + b;
      ReplaceCharConcat(a[1..], b, c, t);
    }
  }

  /** After `s.replace(c, t)` with `c` not in `t`, `c` is gone, and a character `d` absent from `s` and `t` stays absent. */
  lemma {:induction false} ReplaceCharRemoves(s: string, c: char, t: string, d: char)
    requires c !in t && d !in t
    ensures c !in ReplaceChar(s, c, t)
    ensures d !in s ==> d !in ReplaceChar(s, c, t)
  {
    if s != [] {
      ReplaceCharRemoves(s[1..], c, t, d);
      if d !in s {
        assert d !in s[1..] by {
          forall i | 0 <= i < |s[1..]| ensures s[1..][i] != d {
            assert s[1..][i] == s[i + 1];
          }
        }
      }
    }
  }

  lemma ReplaceCharSingle(x: char, c: char, t: string)
    ensures ReplaceChar([x], c, t) == if x == c then t else [x]
  {
    assert [x][1..] == [];
  }

  lemma LowerConcat(a: string, b: string)
    ensures Lower(a + b) == Lower(a) + Lower(b)
  {
  }

  /**
   * `normalize_text(text)`: `unidecode(text)` followed by replacing `ñ` by `n`
   * and `Ñ` by `N`.  The transliteration table of `unidecode` is not visible
   * here, so the routine is passed in as `unidecode`.
   */
  function NormalizeText(text: string, unidecode: string -> string): (r: string)
    ensures IsAscii(unidecode(text)) ==> r == unidecode(text)
  {
    var u := unidecode(text);
    ReplaceAsciiFree(u, 'ñ', "n");
    ReplaceAsciiFree(ReplaceChar(u, 'ñ', "n"), 'Ñ', "N");
    ReplaceChar(ReplaceChar(u, 'ñ', "n"), 'Ñ', "N")
  }

  /** Replacing a character that does not occur in an ASCII string changes nothing. */
  lemma {:induction false} ReplaceAsciiFree(s: string, c: char, t: string)
    requires c as int >= 128
    ensures IsAscii(s) ==> ReplaceChar(s, c, t) == s && IsAscii(ReplaceChar(s, c, t))
  {
    if s != [] && IsAscii(s) {
      assert IsAscii(s[1..]);
      ReplaceAsciiFree(s[1..], c, t);
      assert s == [s[0]] + s[1..];
    }
  }
}
