/** The three string operations of Python that the session logic relies on:
    `str.strip()`, `str.lower()` and the `in` operator between two strings.
    Python's full Unicode tables are not reproduced; the characters each
    operation acts on are listed explicitly below. */
module Text {

  /** The whitespace that `str.strip()` removes, as far as this model covers it:
      TAB, LF, VT, FF, CR, the separators U+001C..U+001F, SPACE, NEL (U+0085)
      and NO-BREAK SPACE (U+00A0). */
  predicate IsSpace(c: char) {
    ('\t' <= c <= '\r') || ('\U{1C}' <= c <= '\U{1F}') || c == ' ' || c == '\U{85}' || c == '\U{A0}'
  }

  /** `s` with its longest all-whitespace prefix removed. */
  function StripLeft(s: string): (r: string)
    ensures |r| <= |s| && r == s[|s| - |r|..]
    ensures forall k :: 0 <= k < |s| - |r| ==> IsSpace(s[k])
    ensures r != [] ==> !IsSpace(r[0])
  {
    if s != [] && IsSpace(s[0]) then StripLeft(s[1..]) else s
  }

  /** `s` with its longest all-whitespace suffix removed. */
  function StripRight(s: string): (r: string)
    ensures |r| <= |s| && r == s[..|r|]
    ensures forall k :: |r| <= k < |s| ==> IsSpace(s[k])
    ensures r != [] ==> !IsSpace(r[|r| - 1])
  {
    if s != [] && IsSpace(s[|s| - 1]) then StripRight(s[..|s| - 1]) else s
  }

  /** `r` is the slice of `s` starting at index `a`, and everything of `s`
      before and after that slice is whitespace. */
  predicate SurroundedBySpace(s: string, r: string, a: int) {
    && 0 <= a && a + |r| <= |s| && r == s[a..a + |r|]
    && (forall k :: 0 <= k < a ==> IsSpace(s[k]))
    && (forall k :: a + |r| <= k < |s| ==> IsSpace(s[k]))
  }

  /** Python's `s.strip()`: the result is the slice of `s` left when the
      whitespace before and after it is removed; it is empty exactly when `s`
      is all whitespace, and otherwise starts and ends with a non-space. */
  function Strip(s: string): (r: string)
    ensures SurroundedBySpace(s, r, |s| - |StripLeft(s)|)
    ensures r == [] <==> forall k :: 0 <= k < |s| ==> IsSpace(s[k])
    ensures r != [] ==> !IsSpace(r[0]) && !IsSpace(r[|r| - 1])
  {
    var l := StripLeft(s);
    var r := StripRight(l);
    SpaceAround(s, l, r);
    assert r == [] ==> l == [];
    r
  }

  /** A prefix `r` of a suffix `l` of `s`, where everything cut off on
      either side is whitespace, is a slice of `s` with only whitespace
      around it. */
  lemma SpaceAround(s: string, l: string, r: string)
    requires |l| <= |s| && l == s[|s| - |l|..]
    requires forall k :: 0 <= k < |s| - |l| ==> IsSpace(s[k])
    requires |r| <= |l| && r == l[..|r|]
    requires forall k :: |r| <= k < |l| ==> IsSpace(l[k])
    ensures SurroundedBySpace(s, r, |s| - |l|)
  {
    var a := |s| - |l|;
    assert r == s[a..a + |r|];
    forall k | a + |r| <= k < |s| ensures IsSpace(s[k]) {
      assert s[k] == l[k - a];
    }
  }

  /** A string that neither starts nor ends with whitespace is its own strip. */
  lemma StripTrimmed(s: string)
    requires s != [] && !IsSpace(s[0]) && !IsSpace(s[|s| - 1])
    ensures Strip(s) == s
  {
    assert StripLeft(s) == s;
    assert StripRight(s) == s;
  }

  /** Stripping twice is stripping once. */
  lemma StripIdempotent(s: string)
    ensures Strip(Strip(s)) == Strip(s)
  {
    var r := Strip(s);
    if r != [] {
      StripTrimmed(r);
    }
  }

  /** `str.lower()` on one character: A-Z and the Latin-1 capitals
      U+00C0..U+00DE other than U+00D7 (this includes Ä, Ö and Ü) move 32
      code points up to their small letters; every other character is kept. */
  function LowerChar(c: char): char {
    if ('A' <= c <= 'Z') || ('\U{C0}' <= c <= '\U{DE}' && c != '\U{D7}') then
      (c as int + 32) as char
    else
      c
  }

  /** Python's `s.lower()`: same length, each character mapped by LowerChar. */
  function Lower(s: string): (r: string)
    ensures |r| == |s|
    ensures forall k :: 0 <= k < |s| ==> r[k] == LowerChar(s[k])
  {
    if s == [] then [] else [LowerChar(s[0])] + Lower(s[1..])
  }

  /** Lower-casing twice is lower-casing once. */
  lemma LowerIdempotent(s: string)
    ensures Lower(Lower(s)) == Lower(s)
  {
    var once := Lower(s);
    var twice := Lower(once);
    forall k | 0 <= k < |s| ensures twice[k] == once[k] {
      assert once[k] == LowerChar(s[k]);
    }
  }

  /** `pat` occurs in `text` starting at index `i`. */
  predicate OccursAt(pat: string, text: string, i: int) {
    0 <= i && i + |pat| <= |text| && text[i..i + |pat|] == pat
  }

  /** Python's `pat in text` for two strings: `pat` is a prefix of `text` or
      occurs in its tail. The empty pattern occurs in every text. */
  predicate Contains(pat: string, text: string)
    decreases |text|
  {
    (|pat| <= |text| && text[..|pat|] == pat) || (text != [] && Contains(pat, text[1..]))
  }

  /** Contains agrees with the direct definition of a substring: some index
      at which `pat` occurs. */
  lemma {:induction false} ContainsIffOccurs(pat: string, text: string)
    ensures Contains(pat, text) <==> exists i :: OccursAt(pat, text, i)
    decreases |text|
  {
    if |pat| <= |text| && text[..|pat|] == pat {
      assert OccursAt(pat, text, 0);
    } else if text == [] {
      assert |pat| > 0;
    } else {
      ContainsIffOccurs(pat, text[1..]);
      if Contains(pat, text[1..]) {
        var j :| OccursAt(pat, text[1..], j);
        OccursInTail(pat, text, j);
      }
      if exists i :: OccursAt(pat, text, i) {
        var i :| OccursAt(pat, text, i);
        assert i != 0;
        OccursInTail(pat, text, i - 1);
      }
    }
  }

  /** An occurrence in the tail of `text` is an occurrence in `text` one
      index further on, and the other way round. */
  lemma OccursInTail(pat: string, text: string, j: nat)
    requires text != []
    ensures OccursAt(pat, text[1..], j) <==> OccursAt(pat, text, j + 1)
  {
    if j + |pat| <= |text[1..]| {
      assert text[1..][j..j + |pat|] == text[j + 1..j + 1 + |pat|];
    }
  }
}
