# Text-record enrichment: a Dafny model of `main.py`

`main.py` is a batch script. It reads a JSON array of posts. For each post it
derives topic categories and a sentiment label, then writes one output
record per post. The NLP models it calls (spaCy, KeyBERT and a transformers
sentiment pipeline) are opaque, so this project models them as function
parameters. It models and proves the two pieces of logic that sit around
those calls:

- **Category normalisation** (`extract_categories_with_context`), in modules
  `Text` (`text.dfy`) and `Categories` (`categories.dfy`).
  - The entity texts of `text + " " + context` and the keyphrases of `text`
    are upper-cased (`UpperAll`) and unioned.
  - The union is listed (`Combined`).
  - The list is cut to its first `MaxCategories` = 5 items (`Take`).
  - Each surviving item is split on whitespace (`Split`, `SplitAll`).
  - The words are deduplicated by turning them into a set and listing that
    set again (`Normalise`).
- **Record projection** (the loop in `main`), in module `Analysis`
  (`analysis.dfy`).
  - Each decoded entry becomes an `OutputRecord` (`Enrich`). The record holds
    `unix_timestamp`, `utc_timestamp`, `posted_in`, the categories of
    (`body`, `posted_in`) and the classifier's label for `body`.
  - The method `Analyse` runs that step over the input with a `for` loop,
    keeping input order.
  - An entry on which the Python code would raise ends the run with a
    `Failure`. These are: TypeError on a non-dict entry, KeyError on a
    missing key, and TypeError on a non-string `body` or `posted_in` in
    `text + " " + context`. After such an error the script writes nothing.

How the inputs are modelled:

- `Extractors` holds the injected models.
  - `entityTexts` gives `ent.text` for each spaCy entity.
  - `keyphraseTexts` gives `kw[0]` for each KeyBERT result.
  - `setOrder` is the order in which `list()` walks a Python set.
- Python does not specify that order. `setOrder` is therefore any function
  that lists each set without repeats (`IsSetOrder`). The same function
  models both `list(entities | keyphrases)` and `list(set(split_list))`.
  None of the proved properties depends on which order is chosen.
- `Models` adds the sentiment classifier, reduced to the `label` string it
  yields for a body.
- `upper()` is modelled on ASCII letters. `split()` uses every character for
  which Python's `str.isspace()` holds.

## Model

| member | source | states |
|---|---|---|
| `Text.UpperIsIdempotent` | main.py:22-24 | upper-casing an upper-cased string changes nothing, and the result of `Upper` is always upper-cased |
| `Text.UpperCasedIsFixedPoint` | main.py:22-24 | `IsUpperCased(s)` holds exactly when `Upper(s) == s` |
| `Text.RunEnd` | main.py:26 | the returned end closes the longest whitespace-free run starting at `i`: nothing in the run is whitespace, and the end is the end of the string or a whitespace character |
| `Text.WordsFromSound` | main.py:26 | each word found from a word boundary on is a maximal non-whitespace run `s[a..b]` starting at or after that boundary |
| `Text.WordsFromComplete` | main.py:26 | each maximal non-whitespace run starting at or after a word boundary is among the words found from it |
| `Text.SplitIsMaximalRuns` | main.py:26 | `item.split()` yields exactly the maximal runs of non-whitespace characters (both directions) |
| `Text.WordsAreTokens` | main.py:26 | every word of a split is non-empty and free of whitespace, and is upper-cased when the split string is |
| `Text.SplitOfOneWord` | main.py:26 | a non-empty string with no whitespace splits into just itself |
| `Categories.ListingLength` | main.py:25 | a duplicate-free listing of a set has exactly as many items as the set |
| `Categories.ElementsBound` | main.py:27 | `set(split_list)` has no more elements than `split_list` has positions |
| `Categories.UpperAll` | main.py:22-24 | every element of the upper-cased set is upper-cased, and the upper-cased form of each input text is in it |
| `Categories.Take` | main.py:26 | `categories[:5]` is the prefix of length min(5, length), including when the list is shorter than 5 |
| `Categories.SplitAllMembers` | main.py:26 | a word is in the flattened split list exactly when it is a word of one of the items |
| `Categories.Normalise` | main.py:25-27 | the deduplicated result repeats no word, contains exactly the words of the first five items, and is no longer than their total word count |
| `Categories.Combined` | main.py:21-25 | the combined list holds each element of entities ∪ keyphrases exactly once, and every item is upper-cased |
| `Categories.ExtractCategories` | main.py:20-27 | the categories repeat nothing, number at most the words of the first five combined items, and each is a non-empty, whitespace-free, upper-cased token |
| `Categories.TokensOfTop` | main.py:26 | any word taken from the first five items is non-empty, whitespace-free and upper-cased |
| `Categories.TopIsDistinct` | main.py:25-26 | the first five combined items are distinct, drawn from the union, and as many as min(5, size of the union) |
| `Categories.LaterItemsIgnored` | main.py:26 | a word that occurs only in items at index 5 or beyond is absent from the result |
| `Categories.NormaliseReadsOnlyTop` | main.py:26 | dropping every item past the fifth leaves the result unchanged |
| `Categories.CategoriesAreWordsOfTop` | main.py:25-27 | a string is a category exactly when it is a maximal non-whitespace run of one of the first five combined items |
| `Categories.TruncateBeforeSplit` | main.py:26 | for items "A B C" and "D E F", truncating before splitting keeps "F" but splitting before truncating loses it, so the order of the two steps matters |
| `Categories.SplitOfThreeLetters` | main.py:26 | three single letters separated by spaces split into three one-letter words |
| `Analysis.Enrich` | main.py:35-43 | an entry succeeds exactly when it is an object with `body`, `posted_in`, `unix_timestamp` and `utc_timestamp`, and `body` and `posted_in` are strings; the record copies the two timestamps and `posted_in` unchanged, and its category and label come from body and posted_in; each failure names the missing or ill-typed key |
| `Analysis.Analyse` | main.py:33-44 | on success there is one output record per entry, in the same order, and record i is the result for entry i; the run fails exactly when some entry is not well formed, and then reports the failure of the first such entry |
| `Analysis.OutputRecordFields` | main.py:35-43 | an output record's category list has no duplicates and holds only upper-cased, whitespace-free, non-empty words; its posted_in and label come from its entry |
| `Analysis.SampleScenario` | main.py:35-43 | with one stub entity "product", no keyphrases and a "positive" classifier, the sample post yields category ["PRODUCT"] and label "positive" and drops source, subsource and body; without utc_timestamp the same post raises KeyError |
| `Analysis.ListingOfSingleton` | main.py:25 | listing a one-element set gives that element alone |

## Behaviour of main.py worth noting

- `utc_timestamp` is required. `main.py:39` reads `entry["utc_timestamp"]`
  unconditionally, so an entry without it raises KeyError
  (`Analysis.SampleScenario`).
- Only three input fields are copied: `unix_timestamp`, `utc_timestamp` and
  `posted_in`. Fields such as `body`, `source` or `subsource` are dropped.
- The sentiment field is named `label` and the categories are a list
  (`main.py:37-43`). Because `label` is reserved in Dafny, the model's
  field is named `sentimentLabel`.

## Left out

- The spaCy NER, KeyBERT and transformers models (`main.py:13-15`, `21`,
  `23`, `36`): opaque ML models, taken as the function parameters of
  `Extractors` and `Models`. KeyBERT's n-gram range and stop-word list are
  inside the model too.
- Reading and writing JSON (`main.py:30-31`, `47-48`): this is I/O. The
  input is the sequence of decoded array elements. A top-level document that
  is not an array is not modelled. JSON numbers are integers only, and the
  layout of the written file (`indent=4`, key order) is not modelled.
- The timestamped output file name from `datetime.now()` (`main.py:18`):
  it depends on the clock.
- `tqdm` progress output and `logging` (`main.py:9`, `12`, `46`, `50`):
  these are display only.
- Text.Upper: models `str.upper()` on ASCII letters only. Full Unicode case
  mapping, including mappings that change length such as "ß" to "SS", is
  not modelled.
- Categories.IsSetOrder: Python's set iteration order is modelled as a
  function of the set's contents. CPython can make the order depend on
  insertion history as well. No proved property depends on the order.
- Analysis.Enrich: the classifier may itself fail, and Python may raise
  other exceptions inside the models. These are not modelled, because the
  models are total functions here.
