/** The loop of main(): one output record per input entry, in input order.
    Each output record copies unix_timestamp, utc_timestamp and posted_in,
    takes category from extract_categories_with_context(body, posted_in)
    and label from the sentiment classifier applied to body. The entries
    are the already decoded elements of the input JSON array. */
module Analysis {
  import opened Text
  import opened Categories

  /** A decoded JSON value (numbers restricted to integers). */
  datatype Json =
    | JNull
    | JBool(b: bool)
    | JNumber(n: int)
    | JString(s: string)
    | JArray(elems: seq<Json>)
    | JObject(fields: map<string, Json>)

  /** Why processing an entry raises: entry[...] on something that is not
      a dict (TypeError), a missing key (KeyError), or a non-string body or
      posted_in in text + " " + context (TypeError). */
  datatype Failure =
    | NotAnObject
    | MissingKey(key: string)
    | NotAString(key: string)

  datatype Result<T> = Ok(value: T) | Err(failure: Failure)

  /** One element of output_data. */
  datatype OutputRecord = OutputRecord(
    unixTimestamp: Json,
    utcTimestamp: Json,
    postedIn: string,
    category: seq<string>,
    sentimentLabel: string)

  /** The models main() relies on: the two used by the category extractor
      and the sentiment classifier reduced to the label it yields. */
  datatype Models = Models(extractors: Extractors, sentiment: string -> string) {
    ghost predicate Valid() {
      extractors.Valid()
    }
  }

  /** The keys an entry must have for its iteration to complete. */
  const RequiredKeys: set<string> := {"body", "posted_in", "unix_timestamp", "utc_timestamp"}

  /** An entry main() processes without raising. */
  predicate IsWellFormed(entry: Json) {
    && entry.JObject?
    && RequiredKeys <= entry.fields.Keys
    && entry.fields["body"].JString?
    && entry.fields["posted_in"].JString?
  }

  /** The body of the loop for one entry, in the order the source evaluates it. */
  function Enrich(entry: Json, models: Models): (r: Result<OutputRecord>)
    requires models.Valid()
    ensures r.Ok? <==> IsWellFormed(entry)
    ensures r.Ok? ==>
              var f := entry.fields;
              var body := f["body"].s;
              var postedIn := f["posted_in"].s;
              && r.value.unixTimestamp == f["unix_timestamp"]
              && r.value.utcTimestamp == f["utc_timestamp"]
              && r.value.postedIn == postedIn
              && r.value.category == ExtractCategories(body, postedIn, models.extractors)
              && r.value.sentimentLabel == models.sentiment(body)
    ensures r.Err? && r.failure.NotAnObject? ==> !entry.JObject?
    ensures r.Err? && r.failure.MissingKey? ==>
              entry.JObject? && r.failure.key in RequiredKeys && r.failure.key !in entry.fields
    ensures r.Err? && r.failure.NotAString? ==>
              entry.JObject? && r.failure.key in {"body", "posted_in"}
              && r.failure.key in entry.fields && !entry.fields[r.failure.key].JString?
  {
    if !entry.JObject? then Err(NotAnObject)
    else
      var f := entry.fields;
      if "body" !in f then Err(MissingKey("body"))
      else if "posted_in" !in f then Err(MissingKey("posted_in"))
      else if !f["body"].JString? then Err(NotAString("body"))
      else if !f["posted_in"].JString? then Err(NotAString("posted_in"))
      else
        var body := f["body"].s;
        var postedIn := f["posted_in"].s;
        var categories := ExtractCategories(body, postedIn, models.extractors);
        var sentimentLabel := models.sentiment(body);
        if "unix_timestamp" !in f then Err(MissingKey("unix_timestamp"))
        else if "utc_timestamp" !in f then Err(MissingKey("utc_timestamp"))
        else Ok(OutputRecord(f["unix_timestamp"], f["utc_timestamp"], postedIn, categories, sentimentLabel))
  }

  /** The loop of main(): builds output_data entry by entry. The first
      entry that raises ends the run, and nothing is written. */
  method Analyse(input: seq<Json>, models: Models) returns (r: Result<seq<OutputRecord>>)
    requires models.Valid()
    ensures r.Ok? <==> forall i :: 0 <= i < |input| ==> IsWellFormed(input[i])
    ensures r.Ok? ==>
              && |r.value| == |input|
              && forall i :: 0 <= i < |input| ==> Enrich(input[i], models) == Ok(r.value[i])
    ensures r.Err? ==>
              exists i :: 0 <= i < |input|
                && Enrich(input[i], models) == Err(r.failure)
                && forall j :: 0 <= j < i ==> IsWellFormed(input[j])
  {
    var output: seq<OutputRecord> := [];
    for i := 0 to |input|
      invariant |output| == i
      invariant forall j :: 0 <= j < i ==> Enrich(input[j], models) == Ok(output[j])
    {
      var entry := Enrich(input[i], models);
      if entry.Err? {
        return Err(entry.failure);
      }
      output := output + [entry.value];
    }
    return Ok(output);
  }

  /** Each output record carries its entry's fields and derived values. */
  lemma OutputRecordFields(entry: Json, models: Models, out: OutputRecord)
    requires models.Valid()
    requires Enrich(entry, models) == Ok(out)
    ensures NoDuplicates(out.category)
    ensures forall w :: w in out.category ==> w != [] && HasNoWhitespace(w) && IsUpperCased(w)
    ensures out.postedIn == entry.fields["posted_in"].s
    ensures out.sentimentLabel == models.sentiment(entry.fields["body"].s)
  {
  }

  /** A sample post that also carries source and subsource fields. */
  function SampleEntry(withUtc: bool): (entry: Json) {
    var fields := map[
      "source" := JString("forum"),
      "subsource" := JString("threadA"),
      "body" := JString("I love this product"),
      "posted_in" := JString("general"),
      "unix_timestamp" := JNumber(1700000000)];
    JObject(if withUtc then fields["utc_timestamp" := JString("2023-11-14T22:13:20Z")] else fields)
  }

  /** With a recogniser that finds one entity "product", no keyphrases and
      a classifier answering "positive", the sample entry yields category
      ["PRODUCT"] and label "positive", and source, subsource and body are
      dropped; without utc_timestamp the same entry raises KeyError. */
  lemma SampleScenario(setOrder: set<string> -> seq<string>)
    requires IsSetOrder(setOrder)
    ensures var models := Models(Extractors(t => ["product"], t => [], setOrder), t => "positive");
            && Enrich(SampleEntry(true), models)
               == Ok(OutputRecord(JNumber(1700000000), JString("2023-11-14T22:13:20Z"), "general", ["PRODUCT"], "positive"))
            && Enrich(SampleEntry(false), models) == Err(MissingKey("utc_timestamp"))
  {
    var ex := Extractors(t => ["product"], t => [], setOrder);
    var body, postedIn := "I love this product", "general";
    assert Upper("product") == "PRODUCT";
    assert Entities(body, postedIn, ex) + Keyphrases(body, ex) == {"PRODUCT"};
    ListingOfSingleton(Combined(body, postedIn, ex), "PRODUCT");
    SplitOfOneWord("PRODUCT");
    assert SplitAll(["PRODUCT"]) == ["PRODUCT"];
    var r := ExtractCategories(body, postedIn, ex);
    ListingOfSingleton(r, "PRODUCT");
  }

  lemma ListingOfSingleton(xs: seq<string>, x: string)
    requires IsListing(xs, {x})
    ensures xs == [x]
  {
    ListingLength(xs, {x});
  }
}
