/** extract_categories_with_context: the upper-cased named entities of
    "text context" are unioned with the upper-cased keyphrases of text,
    the union is listed, the list is cut to its first MaxCategories items,
    each surviving item is split into words, and the words are
    deduplicated. The NER model, the keyphrase model and the order in
    which Python lists a set are parameters. */
module Categories {
  import opened Text

  /** How many combined items take part (the slice categories[:5]). */
  const MaxCategories: nat := 5

  predicate NoDuplicates<T(==)>(xs: seq<T>) {
    forall i, j :: 0 <= i < j < |xs| ==> xs[i] != xs[j]
  }

  /** xs lists the elements of s, each once. */
  ghost predicate IsListing<T(!new)>(xs: seq<T>, s: set<T>) {
    NoDuplicates(xs) && forall x :: x in xs <==> x in s
  }

  /** setOrder behaves like list() on a Python set: each element once,
      in some order that depends only on the set. */
  ghost predicate IsSetOrder(setOrder: set<string> -> seq<string>) {
    forall s :: IsListing(setOrder(s), s)
  }

  /** The models the function calls, injected. */
  datatype Extractors = Extractors(
    entityTexts: string -> seq<string>,     // ent.text of each entity spaCy finds
    keyphraseTexts: string -> seq<string>,  // the phrase of each pair KeyBERT returns
    setOrder: set<string> -> seq<string>)   // list(...) applied to a set
  {
    ghost predicate Valid() {
      IsSetOrder(setOrder)
    }
  }

  lemma {:induction false} ListingLength<T(!new)>(xs: seq<T>, s: set<T>)
    requires IsListing(xs, s)
    ensures |xs| == |s|
  {
    if xs != [] {
      var rest := s - {xs[0]};
      forall x ensures x in xs[1..] <==> x in rest {
        if x in xs[1..] {
          var i :| 0 <= i < |xs[1..]| && xs[1..][i] == x;
          assert xs[i + 1] == x;
        }
        if x in rest {
          var i :| 0 <= i < |xs| && xs[i] == x;
          assert i != 0;
          assert xs[1..][i - 1] == x;
        }
      }
      assert NoDuplicates(xs[1..]) by {
        forall i, j | 0 <= i < j < |xs[1..]| ensures xs[1..][i] != xs[1..][j] {
          assert xs[i + 1] != xs[j + 1];
        }
      }
      ListingLength(xs[1..], rest);
    }
  }

  /** A sequence has at least as many positions as distinct elements. */
  lemma {:induction false} ElementsBound<T>(xs: seq<T>)
    ensures |set x | x in xs| <= |xs|
  {
    if xs != [] {
      ElementsBound(xs[1..]);
      assert (set x | x in xs) == (set x | x in xs[1..]) + {xs[0]};
    }
  }

  /** {t.upper() for t in texts}. */
  function UpperAll(texts: seq<string>): (r: set<string>)
    ensures forall t :: t in r ==> IsUpperCased(t)
    ensures forall t :: t in texts ==> Upper(t) in r
  {
    set t | t in texts :: Upper(t)
  }

  /** The first MaxCategories items of xs, or all of them when fewer. */
  function Take(xs: seq<string>): (r: seq<string>)
    ensures |r| == if |xs| < MaxCategories then |xs| else MaxCategories
    ensures r == xs[..|r|]
  {
    if |xs| < MaxCategories then xs else xs[..MaxCategories]
  }

  /** [word for item in items for word in item.split()]. */
  function SplitAll(items: seq<string>): (words: seq<string>) {
    if items == [] then [] else Split(items[0]) + SplitAll(items[1..])
  }

  lemma {:induction false} SplitAllMembers(items: seq<string>, w: string)
    ensures w in SplitAll(items) <==> exists k :: 0 <= k < |items| && w in Split(items[k])
  {
    if items != [] {
      SplitAllMembers(items[1..], w);
      if exists k :: 0 <= k < |items| && w in Split(items[k]) {
        var k :| 0 <= k < |items| && w in Split(items[k]);
        if k > 0 {
          assert items[1..][k - 1] == items[k];
        }
      }
      if w in SplitAll(items[1..]) {
        var k :| 0 <= k < |items[1..]| && w in Split(items[1..][k]);
        assert items[k + 1] == items[1..][k];
      }
    }
  }

  /** The post-processing on the listed union: truncate, split, deduplicate. */
  function Normalise(categories: seq<string>, setOrder: set<string> -> seq<string>): (r: seq<string>)
    requires IsSetOrder(setOrder)
    ensures NoDuplicates(r)
    ensures forall w :: w in r <==> w in SplitAll(Take(categories))
    ensures |r| <= |SplitAll(Take(categories))|
  {
    var tokens := SplitAll(Take(categories));
    var r := setOrder(set w | w in tokens);
    ListingLength(r, set w | w in tokens);
    ElementsBound(tokens);
    r
  }

  /** The upper-cased entity mentions of text + " " + context. */
  function Entities(text: string, context: string, ex: Extractors): (r: set<string>) {
    UpperAll(ex.entityTexts(text + " " + context))
  }

  /** The upper-cased keyphrases of text. */
  function Keyphrases(text: string, ex: Extractors): (r: set<string>) {
    UpperAll(ex.keyphraseTexts(text))
  }

  /** list(entities | keyphrases). */
  function Combined(text: string, context: string, ex: Extractors): (c: seq<string>)
    requires ex.Valid()
    ensures IsListing(c, Entities(text, context, ex) + Keyphrases(text, ex))
    ensures forall item :: item in c ==> IsUpperCased(item)
  {
    ex.setOrder(Entities(text, context, ex) + Keyphrases(text, ex))
  }

  /** categories[:5], the items whose words make up the result. */
  function Top(text: string, context: string, ex: Extractors): (top: seq<string>)
    requires ex.Valid()
  {
    Take(Combined(text, context, ex))
  }

  function ExtractCategories(text: string, context: string, ex: Extractors): (r: seq<string>)
    requires ex.Valid()
    ensures NoDuplicates(r)
    ensures |r| <= |SplitAll(Top(text, context, ex))|
    ensures forall w :: w in r ==> w != [] && HasNoWhitespace(w) && IsUpperCased(w)
  {
    var r := Normalise(Combined(text, context, ex), ex.setOrder);
    TokensOfTop(text, context, ex, r);
    r
  }

  lemma TokensOfTop(text: string, context: string, ex: Extractors, r: seq<string>)
    requires ex.Valid()
    requires forall w :: w in r ==> w in SplitAll(Top(text, context, ex))
    ensures forall w :: w in r ==> w != [] && HasNoWhitespace(w) && IsUpperCased(w)
  {
    var top := Top(text, context, ex);
    forall w | w in r ensures w != [] && HasNoWhitespace(w) && IsUpperCased(w) {
      SplitAllMembers(top, w);
      var k :| 0 <= k < |top| && w in Split(top[k]);
      WordsAreTokens(top[k], w);
    }
  }

  // ---------------------------------------------------------------------
  // Properties
  // ---------------------------------------------------------------------

  /** The combined list repeats nothing, so its first MaxCategories items
      are distinct and as many as the union allows. */
  lemma TopIsDistinct(text: string, context: string, ex: Extractors)
    requires ex.Valid()
    ensures var union := Entities(text, context, ex) + Keyphrases(text, ex);
            var top := Top(text, context, ex);
            && NoDuplicates(top)
            && |top| == (if |union| < MaxCategories then |union| else MaxCategories)
            && forall item :: item in top ==> item in union
  {
    var union := Entities(text, context, ex) + Keyphrases(text, ex);
    ListingLength(Combined(text, context, ex), union);
  }

  /** A word found only in items at positions MaxCategories and beyond is
      not in the result. */
  lemma LaterItemsIgnored(categories: seq<string>, setOrder: set<string> -> seq<string>, w: string)
    requires IsSetOrder(setOrder)
    requires forall k :: 0 <= k < |Take(categories)| ==> w !in Split(categories[k])
    ensures w !in Normalise(categories, setOrder)
  {
    SplitAllMembers(Take(categories), w);
  }

  /** Items past the first MaxCategories can be dropped without changing
      the result. */
  lemma NormaliseReadsOnlyTop(categories: seq<string>, setOrder: set<string> -> seq<string>)
    requires IsSetOrder(setOrder)
    ensures Normalise(categories, setOrder) == Normalise(Take(categories), setOrder)
  {
    assert Take(Take(categories)) == Take(categories);
  }

  /** The result consists of exactly the whitespace-separated words of the
      first MaxCategories items of the combined list. */
  lemma CategoriesAreWordsOfTop(text: string, context: string, ex: Extractors, w: string)
    requires ex.Valid()
    ensures var top := Top(text, context, ex);
            w in ExtractCategories(text, context, ex) <==>
            exists k, a, b :: 0 <= k < |top| && IsWordAt(top[k], a, b) && w == top[k][a..b]
  {
    var top := Top(text, context, ex);
    SplitAllMembers(top, w);
    if w in ExtractCategories(text, context, ex) {
      var k :| 0 <= k < |top| && w in Split(top[k]);
      SplitIsMaximalRuns(top[k], w);
    }
    if exists k, a, b :: 0 <= k < |top| && IsWordAt(top[k], a, b) && w == top[k][a..b] {
      var k, a, b :| 0 <= k < |top| && IsWordAt(top[k], a, b) && w == top[k][a..b];
      SplitIsMaximalRuns(top[k], w);
    }
  }

  /** Truncating before splitting is not the same as splitting before
      truncating: when the first items hold more than MaxCategories words,
      the later words survive only in the former. */
  lemma TruncateBeforeSplit()
    ensures var items := ["A B C", "D E F"];
            "F" in SplitAll(Take(items)) && "F" !in Take(SplitAll(items))
  {
    var items := ["A B C", "D E F"];
    SplitOfThreeLetters('A', 'B', 'C');
    SplitOfThreeLetters('D', 'E', 'F');
    assert SplitAll(items) == Split(items[0]) + SplitAll(items[1..]);
    assert SplitAll(items[1..]) == Split(items[1]) + SplitAll([]);
    assert SplitAll(items) == ["A", "B", "C", "D", "E", "F"];
  }

  lemma SplitOfThreeLetters(x: char, y: char, z: char)
    requires !IsWhitespace(x) && !IsWhitespace(y) && !IsWhitespace(z)
    ensures Split([x, ' ', y, ' ', z]) == [[x], [y], [z]]
  {
    var s := [x, ' ', y, ' ', z];
    assert RunEnd(s, 0) == 1 && RunEnd(s, 2) == 3 && RunEnd(s, 4) == 5;
    assert s[0..1] == [x] && s[2..3] == [y] && s[4..5] == [z];
    assert WordsFrom(s, 4) == [[z]] + WordsFrom(s, 5) == [[z]];
    assert WordsFrom(s, 2) == [[y]] + WordsFrom(s, 3) == [[y]] + WordsFrom(s, 4);
    assert WordsFrom(s, 0) == [[x]] + WordsFrom(s, 1) == [[x]] + WordsFrom(s, 2);
  }
}
