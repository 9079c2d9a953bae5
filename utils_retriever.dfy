/**
 * Retrieval post-processing (src/app/setting/utils_retriever.py): collapsing the metadata of the
 * retrieved documents into one value per requested key, attaching relevance scores to the documents,
 * and building SQL queries from the extracted keys.
 *
 * Relevance scores are floats in the source; only their order and emptiness matter here, so they are
 * integers. A metadata value is either a number (Python int or float) or some other value (a text).
 */
module RetrieverUtils {
  import opened Wrappers
  import opened Exceptions

  datatype Value = Num(n: int) | Str(s: string)

  type Metadata = map<string, Value>

  /** Python's `KeyError(key)`; its `str()` is the key's repr (escaping inside the key is not modelled). */
  function KeyError(key: string): Fault
  {
    Raised("KeyError", "'" + key + "'")
  }

  /** `itemgetter()` with no keys refuses to be built. */
  const NoKeysError: Fault := Raised("TypeError", "itemgetter expected 1 argument, got 0")

  /** `max` over a list whose first element is a number and some later element is not. */
  const MixedMaxError: Fault := Raised("TypeError", "'>' not supported between instances of 'str' and 'int'")

  // ---------------------------------------------------------------------------------------------
  // itemgetter and the per-document tuples

  /** `itemgetter(*keys)(metadata)` as a list: the values of the keys in key order; KeyError for the first missing key. */
  function ItemGetter(md: Metadata, keys: seq<string>): (r: Result<seq<Value>, Fault>)
    ensures r.Success? <==> forall k :: k in keys ==> k in md
    ensures r.Success? ==> |r.value| == |keys| && forall i :: 0 <= i < |keys| ==> r.value[i] == md[keys[i]]
    ensures r.Failure? ==> exists i :: 0 <= i < |keys| && keys[i] !in md && r.error == KeyError(keys[i])
                                       && forall j :: 0 <= j < i ==> keys[j] in md
  {
    if keys == [] then Success([])
    else if keys[0] !in md then Failure(KeyError(keys[0]))
    else match ItemGetter(md, keys[1..])
      case Failure(e) => Failure(e)
      case Success(rest) => Success([md[keys[0]]] + rest)
  }

  /** `[itemgetter(*keys)(item.metadata) for item in response]`: one tuple per document, or the first document's KeyError. */
  function Tuples(response: seq<Metadata>, keys: seq<string>): (r: Result<seq<seq<Value>>, Fault>)
    ensures r.Success? <==> forall i :: 0 <= i < |response| ==> ItemGetter(response[i], keys).Success?
    ensures r.Success? ==> |r.value| == |response|
    ensures r.Success? ==> forall i :: 0 <= i < |response| ==> r.value[i] == ItemGetter(response[i], keys).value
    ensures r.Failure? ==> exists i :: 0 <= i < |response| && ItemGetter(response[i], keys).Failure?
                                       && r == Failure(ItemGetter(response[i], keys).error)
                                       && forall j :: 0 <= j < i ==> ItemGetter(response[j], keys).Success?
  {
    if response == [] then Success([])
    else match ItemGetter(response[0], keys)
      case Failure(e) => Failure(e)
      case Success(first) =>
        match Tuples(response[1..], keys)
        case Failure(e) => Failure(e)
        case Success(rest) => Success([first] + rest)
  }

  // ---------------------------------------------------------------------------------------------
  // max over numbers

  /** The values of a list of one-key tuples. */
  function Column(tuples: seq<seq<Value>>): (r: seq<Value>)
    requires forall i :: 0 <= i < |tuples| ==> |tuples[i]| == 1
    ensures |r| == |tuples| && forall i :: 0 <= i < |tuples| ==> r[i] == tuples[i][0]
  {
    if tuples == [] then [] else [tuples[0][0]] + Column(tuples[1..])
  }

  /** Python's `max` over a list that starts with a number: the largest number, or a TypeError once a non-number is met. */
  function MaxNum(xs: seq<Value>): (r: Result<Value, Fault>)
    requires |xs| > 0 && xs[0].Num?
    ensures r.Success? <==> forall i :: 0 <= i < |xs| ==> xs[i].Num?
    ensures r.Success? ==> r.value in xs && forall i :: 0 <= i < |xs| ==> xs[i].n <= r.value.n
    ensures r.Failure? ==> r.error == MixedMaxError
  {
    if |xs| == 1 then Success(xs[0])
    else if !xs[|xs| - 1].Num? then Failure(MixedMaxError)
    else match MaxNum(xs[..|xs| - 1])
      case Failure(e) => Failure(e)
      case Success(m) =>
        assert forall i :: 0 <= i < |xs| - 1 ==> xs[..|xs| - 1][i] == xs[i];
        Success(if xs[|xs| - 1].n > m.n then xs[|xs| - 1] else m)
  }

  // ---------------------------------------------------------------------------------------------
  // Counter(...).most_common(1)[0][0]

  /** How often `x` occurs in `xs`. */
  function Count<T(==)>(xs: seq<T>, x: T): nat
  {
    multiset(xs)[x]
  }

  /** The position of the first occurrence of `x` in `xs`. */
  function FirstIndex<T(==)>(xs: seq<T>, x: T): (i: nat)
    requires x in xs
    ensures i < |xs| && xs[i] == x && forall j :: 0 <= j < i ==> xs[j] != x
  {
    if xs[0] == x then 0 else 1 + FirstIndex(xs[1..], x)
  }

  /**
   * Scans positions `i..` keeping in `b` the first position seen so far whose element occurs most often:
   * a later element replaces it only if it occurs strictly more often.
   */
  function BestFrom<T(==)>(xs: seq<T>, i: nat, b: nat): (r: nat)
    requires b < i <= |xs|
    requires forall j :: 0 <= j < i ==> Count(xs, xs[j]) <= Count(xs, xs[b])
    requires forall j :: 0 <= j < b ==> Count(xs, xs[j]) < Count(xs, xs[b])
    ensures r < |xs|
    ensures forall j :: 0 <= j < |xs| ==> Count(xs, xs[j]) <= Count(xs, xs[r])
    ensures forall j :: 0 <= j < r ==> Count(xs, xs[j]) < Count(xs, xs[r])
    decreases |xs| - i
  {
    if i == |xs| then b
    else if Count(xs, xs[i]) > Count(xs, xs[b]) then BestFrom(xs, i + 1, i)
    else BestFrom(xs, i + 1, b)
  }

  /**
   * `Counter(xs).most_common(1)[0][0]`: an element that occurs most often; among those, the one whose
   * first occurrence comes first (a Counter keeps first-insertion order and `most_common` keeps the first maximum).
   */
  function MostCommon<T(==)>(xs: seq<T>): (r: T)
    requires |xs| > 0
    ensures r in xs
    ensures forall y :: y in xs ==> Count(xs, y) <= Count(xs, r)
    ensures forall y :: y in xs && Count(xs, y) == Count(xs, r) ==> FirstIndex(xs, r) <= FirstIndex(xs, y)
  {
    var p := BestFrom(xs, 1, 0);
    assert FirstIndex(xs, xs[p]) == p;
    forall y | y in xs && Count(xs, y) == Count(xs, xs[p])
      ensures p <= FirstIndex(xs, y)
    {
      var q := FirstIndex(xs, y);
      assert Count(xs, xs[q]) == Count(xs, xs[p]);
    }
    forall y | y in xs ensures Count(xs, y) <= Count(xs, xs[p]) {
      var q := FirstIndex(xs, y);
    }
    xs[p]
  }

  // ---------------------------------------------------------------------------------------------
  // _get_metadata

  /** Does the aggregation take the `max` branch: several documents, and the first tuple is a bare number? */
  predicate NumericFirst(tuples: seq<seq<Value>>, keys: seq<string>)
    requires |tuples| > 0 && |tuples[0]| == |keys|
  {
    |keys| == 1 && tuples[0][0].Num?
  }

  /**
   * `_get_metadata(response, *keys)`: nothing for no documents; a single document's values for the keys;
   * for several documents the largest value when the first value is a number (one key only, since several
   * keys give tuples), otherwise the most common tuple of values.
   */
  function GetMetadata(response: seq<Metadata>, keys: seq<string>): (r: Result<seq<Value>, Fault>)
    ensures response == [] ==> r == Success([])
    ensures response != [] && keys == [] ==> r == Failure(NoKeysError)
    ensures response != [] && keys != [] && Tuples(response, keys).Failure? ==> r == Failure(Tuples(response, keys).error)
  {
    if response == [] then Success([])
    else if keys == [] then Failure(NoKeysError)
    else if |response| == 1 then ItemGetter(response[0], keys)
    else match Tuples(response, keys)
      case Failure(e) => Failure(e)
      case Success(tuples) =>
        if NumericFirst(tuples, keys) then
          match MaxNum(Column(tuples))
          case Failure(e) => Failure(e)
          case Success(m) => Success([m])
        else Success(MostCommon(tuples))
  }

  /** Every document has every key. */
  ghost predicate AllHaveKeys(response: seq<Metadata>, keys: seq<string>)
  {
    forall i, k :: 0 <= i < |response| && k in keys ==> k in response[i]
  }

  /** For a non-empty result set the result has one entry per key, in key order. */
  lemma {:induction false} OneEntryPerKey(response: seq<Metadata>, keys: seq<string>)
    requires response != [] && GetMetadata(response, keys).Success?
    ensures |GetMetadata(response, keys).value| == |keys|
  {
    if |response| > 1 {
      var tuples := Tuples(response, keys).value;
      if NumericFirst(tuples, keys) {
      } else {
        var m := MostCommon(tuples);
        var i :| 0 <= i < |tuples| && tuples[i] == m;
      }
    }
  }

  /** A lookup fails only for want of keys or for a missing key, and never for a mix of value kinds unless `max` applies. */
  lemma {:induction false} SucceedsWhenKeysPresent(response: seq<Metadata>, keys: seq<string>)
    requires keys != [] && AllHaveKeys(response, keys)
    requires |response| > 1 && |keys| == 1 && keys[0] in response[0] && response[0][keys[0]].Num? ==>
               forall i :: 0 <= i < |response| ==> keys[0] in response[i] && response[i][keys[0]].Num?
    ensures GetMetadata(response, keys).Success?
  {
    if |response| > 1 {
      var tuples := Tuples(response, keys).value;
      if NumericFirst(tuples, keys) {
        var col := Column(tuples);
        forall i | 0 <= i < |col| ensures col[i].Num? {
          assert col[i] == tuples[i][0] == response[i][keys[0]];
        }
      }
    }
  }

  /**
   * A document lacking a requested key makes the lookup raise: the KeyError of the first missing key
   * of the first document that lacks one.
   */
  lemma MissingKeyRaises(response: seq<Metadata>, keys: seq<string>)
    requires keys != [] && !AllHaveKeys(response, keys)
    ensures var r := GetMetadata(response, keys);
            exists i, j :: 0 <= i < |response| && 0 <= j < |keys| && keys[j] !in response[i]
                           && r == Failure(KeyError(keys[j]))
                           && (forall i' :: 0 <= i' < i ==> forall k :: k in keys ==> k in response[i'])
                           && (forall j' :: 0 <= j' < j ==> keys[j'] in response[i])
  {
  }

  /** With one document, its values for the keys pass through unchanged. */
  lemma SingleDocumentPassesThrough(md: Metadata, keys: seq<string>)
    requires keys != [] && forall k :: k in keys ==> k in md
    ensures var r := GetMetadata([md], keys);
            r.Success? && |r.value| == |keys| && forall i :: 0 <= i < |keys| ==> r.value[i] == md[keys[i]]
  {
  }

  /** Several documents, one key, a number first: the result is the largest of the values. */
  lemma {:induction false} NumericKeyGivesMax(response: seq<Metadata>, key: string)
    requires |response| > 1 && forall i :: 0 <= i < |response| ==> key in response[i] && response[i][key].Num?
    ensures var r := GetMetadata(response, [key]);
            r.Success? && |r.value| == 1 && r.value[0].Num?
            && (exists i :: 0 <= i < |response| && r.value[0] == response[i][key])
            && forall i :: 0 <= i < |response| ==> response[i][key].n <= r.value[0].n
  {
    var tuples := Tuples(response, [key]).value;
    var col := Column(tuples);
    assert forall i :: 0 <= i < |response| ==> col[i] == tuples[i][0] == response[i][key];
    var m := MaxNum(col).value;
    var i :| 0 <= i < |col| && col[i] == m;
  }

  /** The same, for a value known in advance to be the largest: the lookup gives exactly that value. */
  lemma NumericKeyGivesValue(response: seq<Metadata>, key: string, best: int, j: nat)
    requires |response| > 1 && forall i :: 0 <= i < |response| ==> key in response[i] && response[i][key].Num?
    requires j < |response| && response[j][key] == Num(best)
    requires forall i :: 0 <= i < |response| ==> response[i][key].n <= best
    ensures GetMetadata(response, [key]) == Success([Num(best)])
  {
    NumericKeyGivesMax(response, key);
    var r := GetMetadata(response, [key]).value;
    assert response[j][key].n <= r[0].n;
    assert r[0] == Num(best);
    assert r == [r[0]];
  }

  /** Several documents, one key, a number first but some value not a number: Python's `max` raises. */
  lemma {:induction false} MixedNumericKeyRaises(response: seq<Metadata>, key: string, j: nat)
    requires |response| > 1 && forall i :: 0 <= i < |response| ==> key in response[i]
    requires response[0][key].Num? && j < |response| && !response[j][key].Num?
    ensures GetMetadata(response, [key]) == Failure(MixedMaxError)
  {
    var tuples := Tuples(response, [key]).value;
    var col := Column(tuples);
    assert col[j] == tuples[j][0] == response[j][key];
  }

  /**
   * Several documents whose first value is not a bare number: the result is the most frequent tuple of
   * values, the earliest first occurrence winning a tie. With several keys this always applies, and the
   * mode is taken over whole tuples, not key by key.
   */
  lemma {:induction false} OtherwiseMostCommonTuple(response: seq<Metadata>, keys: seq<string>)
    requires |response| > 1 && keys != [] && AllHaveKeys(response, keys)
    requires |keys| > 1 || (keys[0] in response[0] && !response[0][keys[0]].Num?)
    ensures var r := GetMetadata(response, keys);
            var tuples := Tuples(response, keys);
            tuples.Success? && r.Success?
            && r.value in tuples.value
            && (forall t :: t in tuples.value ==> Count(tuples.value, t) <= Count(tuples.value, r.value))
            && (forall t :: t in tuples.value && Count(tuples.value, t) == Count(tuples.value, r.value) ==>
                  FirstIndex(tuples.value, r.value) <= FirstIndex(tuples.value, t))
  {
    var tuples := Tuples(response, keys).value;
    assert tuples[0] == ItemGetter(response[0], keys).value;
    assert !NumericFirst(tuples, keys);
  }

  /** A worked case of the tuple mode: (a,x), (a,y), (b,y) each occur once, although "y" is the commoner second value. */
  const ModeDocs: seq<Metadata> := [map["k" := Str("a"), "v" := Str("x")],
                                    map["k" := Str("a"), "v" := Str("y")],
                                    map["k" := Str("b"), "v" := Str("y")]]

  const ModeTuples: seq<seq<Value>> := [[Str("a"), Str("x")], [Str("a"), Str("y")], [Str("b"), Str("y")]]

  lemma ModeDocsTuples()
    ensures Tuples(ModeDocs, ["k", "v"]) == Success(ModeTuples)
  {
    var keys := ["k", "v"];
    forall i | 0 <= i < 3 ensures ItemGetter(ModeDocs[i], keys) == Success(ModeTuples[i]) {
      var r := ItemGetter(ModeDocs[i], keys);
      assert r.Success? && |r.value| == 2 == |ModeTuples[i]|;
      assert r.value[0] == ModeTuples[i][0] && r.value[1] == ModeTuples[i][1];
      assert r.value == ModeTuples[i];
    }
    var t := Tuples(ModeDocs, keys).value;
    assert |t| == 3 && t[0] == ModeTuples[0] && t[1] == ModeTuples[1] && t[2] == ModeTuples[2];
    assert t == ModeTuples;
  }

  /** Three distinct tuples tie, so the first one is the most common. */
  lemma ModeTuplesPick()
    ensures MostCommon(ModeTuples) == ModeTuples[0]
  {
    var m := MostCommon(ModeTuples);
    assert multiset(ModeTuples)[ModeTuples[0]] == 1;
    assert multiset(ModeTuples)[m] == 1;
    assert FirstIndex(ModeTuples, ModeTuples[0]) == 0;
  }

  /** The aggregation keeps the first tuple, whole: (a, x), not the commoner second value "y". */
  lemma TupleModeIsNotColumnMode()
    ensures GetMetadata(ModeDocs, ["k", "v"]) == Success([Str("a"), Str("x")])
  {
    ModeDocsTuples();
    ModeTuplesPick();
  }

  // ---------------------------------------------------------------------------------------------
  // _create_partial_func / get_metadata_runnable

  /** `_create_partial_func(func, *keys)`: the one-argument function that calls `func` with the keys fixed. */
  function CreatePartialFunc<R>(func: (seq<Metadata>, seq<string>) -> R, keys: seq<string>): (g: seq<Metadata> -> R)
    ensures forall response :: g(response) == func(response, keys)
  {
    response => func(response, keys)
  }

  /** `get_metadata_runnable(*keys)`: `_get_metadata` with its keys fixed. */
  function GetMetadataRunnable(keys: seq<string>): (g: seq<Metadata> -> Result<seq<Value>, Fault>)
    ensures forall response :: g(response) == GetMetadata(response, keys)
  {
    CreatePartialFunc(GetMetadata, keys)
  }

  // ---------------------------------------------------------------------------------------------
  // RetrieveWithScore

  /** The metadata of the hits after the retriever has written each score under "score". */
  function WithScores(hits: seq<(Metadata, int)>): (r: seq<Metadata>)
    ensures |r| == |hits|
    ensures forall i :: 0 <= i < |hits| ==> r[i] == hits[i].0["score" := Num(hits[i].1)]
  {
    if hits == [] then [] else [hits[0].0["score" := Num(hits[0].1)]] + WithScores(hits[1..])
  }

  /** A retrieved document; the retriever updates its metadata in place. */
  class Document {
    const pageContent: string
    var metadata: Metadata

    constructor (pageContent: string, metadata: Metadata)
      ensures this.pageContent == pageContent && this.metadata == metadata
    {
      this.pageContent := pageContent;
      this.metadata := metadata;
    }
  }

  /** The documents of a search result, in result order. */
  function Docs(hits: seq<(Document, int)>): (r: seq<Document>)
    ensures |r| == |hits| && forall i :: 0 <= i < |hits| ==> r[i] == hits[i].0
  {
    if hits == [] then [] else [hits[0].0] + Docs(hits[1..])
  }

  /** The metadata of each document with the score it was paired with. */
  function MetadataWithScore(hits: seq<(Document, int)>): (r: seq<(Metadata, int)>)
    reads Docs(hits)
    ensures |r| == |hits| && forall i :: 0 <= i < |hits| ==> r[i] == (hits[i].0.metadata, hits[i].1)
  {
    if hits == [] then [] else [(hits[0].0.metadata, hits[0].1)] + MetadataWithScore(hits[1..])
  }

  /** The current metadata of each document. */
  function Metadatas(docs: seq<Document>): (r: seq<Metadata>)
    reads docs
    ensures |r| == |docs| && forall i :: 0 <= i < |docs| ==> r[i] == docs[i].metadata
  {
    if docs == [] then [] else [docs[0].metadata] + Metadatas(docs[1..])
  }

  /**
   * The inner `retriever` of `RetrieveWithScore`, given what the vector store's scored similarity search
   * returned (the store applies the `k` cap and the score threshold): no hits give no documents; otherwise
   * the documents in search order, each with its score written into its own metadata under "score".
   * The store builds a fresh document per hit, so the documents are distinct objects.
   */
  method RetrieveWithScore(result: seq<(Document, int)>) returns (docs: seq<Document>)
    requires forall i, j :: 0 <= i < j < |result| ==> result[i].0 != result[j].0
    modifies Docs(result)
    ensures docs == Docs(result)
    ensures Metadatas(docs) == WithScores(old(MetadataWithScore(result)))
  {
    if result == [] {
      return [];
    }
    docs := Docs(result);
    var i := 0;
    while i < |result|
      invariant 0 <= i <= |result|
      invariant forall j :: 0 <= j < i ==> docs[j].metadata == old(docs[j].metadata)["score" := Num(result[j].1)]
      invariant forall j :: i <= j < |result| ==> docs[j].metadata == old(docs[j].metadata)
    {
      var doc := docs[i];
      doc.metadata := doc.metadata["score" := Num(result[i].1)];
      i := i + 1;
    }
  }

  // ---------------------------------------------------------------------------------------------
  // get_sql_querys

  /** The extracted-keys dictionary, shared with the caller's response (values are JSON strings or null). */
  class KeyTable {
    var entries: map<string, Option<string>>

    constructor (entries: map<string, Option<string>>)
      ensures this.entries == entries
    {
      this.entries := entries;
    }
  }

  /**
   * `get_sql_querys`: puts the customer id under "&CustomerID" in the caller's own key dictionary, then
   * fills each SQL template from the keys, in template order. `replace_sql_query` is not defined in the
   * source, so it is a parameter.
   */
  method GetSqlQueries(keys: KeyTable, sql: seq<Value>, userId: string,
                       replaceSqlQuery: (Value, map<string, Option<string>>) -> string)
    returns (queries: seq<string>)
    modifies keys
    ensures keys.entries == old(keys.entries)["&CustomerID" := Some(userId)]
    ensures |queries| == |sql|
    ensures forall i :: 0 <= i < |sql| ==> queries[i] == replaceSqlQuery(sql[i], keys.entries)
  {
    keys.entries := keys.entries["&CustomerID" := Some(userId)];
    queries := [];
    for i := 0 to |sql|
      invariant |queries| == i
      invariant forall j :: 0 <= j < i ==> queries[j] == replaceSqlQuery(sql[j], keys.entries)
    {
      queries := queries + [replaceSqlQuery(sql[i], keys.entries)];
    }
  }
}
