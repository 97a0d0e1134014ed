/** String primitives that extract_categories_with_context relies on:
    upper-casing (restricted to ASCII letters) and Python's argument-less
    str.split(), which cuts a string at runs of whitespace and drops the
    empty pieces. */
module Text {

  /** The characters for which Python's str.isspace() holds; these are
      exactly the separators of str.split() called without arguments. */
  predicate IsWhitespace(c: char) {
    c == ' ' || '\t' <= c <= '\r' || '\U{1C}' <= c <= '\U{1F}'
    || c == '\U{85}' || c == '\U{A0}' || c == '\U{1680}'
    || '\U{2000}' <= c <= '\U{200A}' || c == '\U{2028}' || c == '\U{2029}'
    || c == '\U{202F}' || c == '\U{205F}' || c == '\U{3000}'
  }

  predicate HasNoWhitespace(w: string) {
    forall k :: 0 <= k < |w| ==> !IsWhitespace(w[k])
  }

  // ---------------------------------------------------------------------
  // Upper-casing
  // ---------------------------------------------------------------------

  function UpperChar(c: char): (u: char) {
    if 'a' <= c <= 'z' then (c as int - 32) as char else c
  }

  /** str.upper(), on ASCII letters only. */
  function Upper(s: string): (r: string) {
    seq(|s|, i requires 0 <= i < |s| => UpperChar(s[i]))
  }

  /** s is left unchanged by upper-casing, character by character. */
  predicate IsUpperCased(s: string) {
    forall i :: 0 <= i < |s| ==> UpperChar(s[i]) == s[i]
  }

  lemma UpperIsIdempotent(s: string)
    ensures IsUpperCased(Upper(s))
    ensures Upper(Upper(s)) == Upper(s)
  {
  }

  /** IsUpperCased says exactly that Upper is the identity on s. */
  lemma UpperCasedIsFixedPoint(s: string)
    ensures IsUpperCased(s) <==> Upper(s) == s
  {
  }

  // ---------------------------------------------------------------------
  // Splitting on whitespace
  // ---------------------------------------------------------------------

  /** End of the run of non-whitespace characters that starts at i. */
  function RunEnd(s: string, i: nat): (j: nat)
    requires i <= |s|
    ensures i <= j <= |s|
    ensures forall k :: i <= k < j ==> !IsWhitespace(s[k])
    ensures j == |s| || IsWhitespace(s[j])
    decreases |s| - i
  {
    if i == |s| || IsWhitespace(s[i]) then i else RunEnd(s, i + 1)
  }

  /** The words of s found from position i on. */
  function WordsFrom(s: string, i: nat): (words: seq<string>)
    requires i <= |s|
    decreases |s| - i
  {
    if i == |s| then []
    else if IsWhitespace(s[i]) then WordsFrom(s, i + 1)
    else
      var j := RunEnd(s, i);
      [s[i..j]] + WordsFrom(s, j)
  }

  /** str.split() without arguments. */
  function Split(s: string): (words: seq<string>) {
    WordsFrom(s, 0)
  }

  /** s[a..b] is a maximal non-empty run of non-whitespace characters:
      a whitespace-separated word of s, independently of how Split finds it. */
  predicate IsWordAt(s: string, a: int, b: int) {
    0 <= a < b <= |s|
    && (a == 0 || IsWhitespace(s[a - 1]))
    && (b == |s| || IsWhitespace(s[b]))
    && forall k :: a <= k < b ==> !IsWhitespace(s[k])
  }

  /** Position i of s is not strictly inside a word. */
  predicate AtBoundary(s: string, i: nat)
    requires i <= |s|
  {
    i == 0 || i == |s| || IsWhitespace(s[i - 1]) || IsWhitespace(s[i])
  }

  lemma {:induction false} WordsFromSound(s: string, i: nat, w: string)
    requires i <= |s| && AtBoundary(s, i)
    requires w in WordsFrom(s, i)
    ensures exists a, b :: i <= a && IsWordAt(s, a, b) && w == s[a..b]
    decreases |s| - i
  {
    if IsWhitespace(s[i]) {
      WordsFromSound(s, i + 1, w);
    } else {
      var j := RunEnd(s, i);
      if w == s[i..j] {
        assert IsWordAt(s, i, j);
      } else {
        WordsFromSound(s, j, w);
      }
    }
  }

  lemma {:induction false} WordsFromComplete(s: string, i: nat, a: int, b: int)
    requires i <= |s| && AtBoundary(s, i)
    requires i <= a && IsWordAt(s, a, b)
    ensures s[a..b] in WordsFrom(s, i)
    decreases |s| - i
  {
    if IsWhitespace(s[i]) {
      WordsFromComplete(s, i + 1, a, b);
    } else {
      var j := RunEnd(s, i);
      if a == i {
        assert b == j;
      } else {
        assert j <= a;
        WordsFromComplete(s, j, a, b);
      }
    }
  }

  /** The words Split returns are exactly the maximal runs of
      non-whitespace characters of s. */
  lemma SplitIsMaximalRuns(s: string, w: string)
    ensures w in Split(s) <==> exists a, b :: IsWordAt(s, a, b) && w == s[a..b]
  {
    if w in Split(s) {
      WordsFromSound(s, 0, w);
    }
    if exists a, b :: IsWordAt(s, a, b) && w == s[a..b] {
      var a, b :| IsWordAt(s, a, b) && w == s[a..b];
      WordsFromComplete(s, 0, a, b);
    }
  }

  /** Every word is a non-empty, whitespace-free piece of s, and
      upper-cased when s is. */
  lemma WordsAreTokens(s: string, w: string)
    requires w in Split(s)
    ensures w != [] && HasNoWhitespace(w)
    ensures IsUpperCased(s) ==> IsUpperCased(w)
  {
    SplitIsMaximalRuns(s, w);
    var a, b :| IsWordAt(s, a, b) && w == s[a..b];
    assert forall k :: 0 <= k < |w| ==> w[k] == s[a + k];
  }

  /** A non-empty string without whitespace splits into itself. */
  lemma SplitOfOneWord(w: string)
    requires w != [] && HasNoWhitespace(w)
    ensures Split(w) == [w]
  {
    assert RunEnd(w, 0) == |w|;
    assert w[0..|w|] == w;
    assert WordsFrom(w, |w|) == [];
  }
}
