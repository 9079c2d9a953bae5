/**
 * The intent pipeline of src/app/gai_executors/chain_ner.py.
 *
 * `ChainNer.search` runs the completion ("gate") chain on the user's text, stops if its output carries
 * the blocked marker, otherwise runs the extraction-and-retrieval chain on the gate's output and fills
 * a response template: "98" for blocked, "99" for low similarity or any raised exception, otherwise the
 * retrieved category id with the extracted dates and names.
 *
 * The language-model calls and the vector store are parameters: the gate is a function from the user's
 * text to its output or a fault, the extraction a function from the prompt variables to the parsed JSON
 * object, and the similarity search a function from the query to the scored metadata of the hits.
 */
module NerChain {
  import opened Wrappers
  import opened Strings
  import opened Exceptions
  import opened RetrieverUtils

  // ---------------------------------------------------------------------------------------------
  // _convert_time_format

  predicate IsDigit(c: char)
  {
    '0' <= c <= '9'
  }

  predicate AllDigits(s: string)
  {
    forall i :: 0 <= i < |s| ==> IsDigit(s[i])
  }

  function DigitChar(d: nat): (c: char)
    requires d < 10
    ensures IsDigit(c)
  {
    ('0' as int + d) as char
  }

  /** The value of a string of decimal digits. */
  function Number(s: string): nat
    requires AllDigits(s)
  {
    if s == [] then 0 else 10 * Number(s[..|s| - 1]) + (s[|s| - 1] as int - '0' as int)
  }

  function Pow10(w: nat): (r: nat)
    ensures r >= 1
  {
    if w == 0 then 1 else 10 * Pow10(w - 1)
  }

  /** `n` written with exactly `width` digits, zero padded on the left (as `%Y`, `%m`, `%d`, ... print it). */
  function Pad(n: nat, width: nat): (r: string)
    ensures |r| == width && AllDigits(r)
  {
    if width == 0 then "" else Pad(n / 10, width - 1) + [DigitChar(n % 10)]
  }

  /** A two-digit field: the tens digit, then the units digit. */
  lemma PadTwo(n: nat)
    requires n < 100
    ensures Pad(n, 2) == [DigitChar(n / 10), DigitChar(n % 10)]
  {
    var tens := n / 10;
    assert tens < 10 && tens % 10 == tens;
    assert Pad(n, 2) == Pad(tens, 1) + [DigitChar(n % 10)];
    assert Pad(tens, 1) == Pad(tens / 10, 0) + [DigitChar(tens)];
  }

  /** A four-digit field: its two leading digits, then its two trailing digits. */
  lemma PadFour(n: nat)
    requires n < 10000
    ensures Pad(n, 4) == Pad(n / 100, 2) + Pad(n % 100, 2)
  {
    var q := n / 10;
    var low := n % 100;
    assert q / 10 == n / 100 && low / 10 == q % 10 && low % 10 == n % 10;
    assert Pad(n, 4) == Pad(q, 3) + [DigitChar(n % 10)];
    assert Pad(q, 3) == Pad(q / 10, 2) + [DigitChar(q % 10)];
    PadTwo(low);
  }

  /** Reading back a zero-padded number gives the number. */
  lemma {:induction false} NumberOfPad(n: nat, width: nat)
    requires n < Pow10(width)
    ensures Number(Pad(n, width)) == n
  {
    if width > 0 {
      var p := Pad(n, width);
      assert p[..|p| - 1] == Pad(n / 10, width - 1);
      NumberOfPad(n / 10, width - 1);
    }
  }

  /** Writing back the value of a digit string gives the string. */
  lemma {:induction false} PadOfNumber(s: string)
    requires AllDigits(s)
    ensures Pad(Number(s), |s|) == s
  {
    if s != [] {
      var init := s[..|s| - 1];
      PadOfNumber(init);
      var d := s[|s| - 1] as int - '0' as int;
      assert (10 * Number(init) + d) / 10 == Number(init);
      assert (10 * Number(init) + d) % 10 == d;
      assert s == init + [s[|s| - 1]];
    }
  }

  datatype DateTime = DateTime(year: nat, month: nat, day: nat, hour: nat, minute: nat, second: nat)

  predicate IsLeapYear(y: nat)
  {
    y % 4 == 0 && (y % 100 != 0 || y % 400 == 0)
  }

  function DaysInMonth(y: nat, m: nat): nat
  {
    if m == 2 then (if IsLeapYear(y) then 29 else 28)
    else if m == 4 || m == 6 || m == 9 || m == 11 then 30
    else 31
  }

  /** A calendar date and time whose year prints as four digits. */
  predicate ValidDateTime(dt: DateTime)
  {
    && 1000 <= dt.year <= 9999
    && 1 <= dt.month <= 12
    && 1 <= dt.day <= DaysInMonth(dt.year, dt.month)
    && dt.hour < 24 && dt.minute < 60 && dt.second < 60
  }

  /** `strftime("%Y/%m/%d %H:%M:%S")`. */
  function FormatTimestamp(dt: DateTime): string
  {
    Pad(dt.year, 4) + "/" + Pad(dt.month, 2) + "/" + Pad(dt.day, 2) + " "
    + Pad(dt.hour, 2) + ":" + Pad(dt.minute, 2) + ":" + Pad(dt.second, 2)
  }

  /** `strftime("%Y-%m-%d")`. */
  function FormatDate(dt: DateTime): (r: string)
    ensures |r| == 10 && r[4] == '-' && r[7] == '-'
    ensures AllDigits(r[0..4]) && AllDigits(r[5..7]) && AllDigits(r[8..10])
  {
    Pad(dt.year, 4) + "-" + Pad(dt.month, 2) + "-" + Pad(dt.day, 2)
  }

  /** Nineteen characters laid out as "YYYY/MM/DD HH:MM:SS", every field zero padded. */
  predicate HasTimestampShape(s: string)
  {
    && |s| == 19
    && AllDigits(s[0..4]) && s[4] == '/' && AllDigits(s[5..7]) && s[7] == '/' && AllDigits(s[8..10])
    && s[10] == ' ' && AllDigits(s[11..13]) && s[13] == ':' && AllDigits(s[14..16]) && s[16] == ':'
    && AllDigits(s[17..19])
  }

  /** `strptime(s, "%Y/%m/%d %H:%M:%S")` on a zero-padded timestamp. */
  function ParseTimestamp(s: string): DateTime
    requires HasTimestampShape(s)
  {
    DateTime(Number(s[0..4]), Number(s[5..7]), Number(s[8..10]),
             Number(s[11..13]), Number(s[14..16]), Number(s[17..19]))
  }

  /** The timestamps `_convert_time_format` is modelled on: zero padded, naming a real date and time. */
  predicate IsTimestamp(s: string)
  {
    HasTimestampShape(s) && ValidDateTime(ParseTimestamp(s))
  }

  /** `_convert_time_format`: keeps the date, with '-' for '/', and drops the time of day. */
  function ConvertTimeFormat(s: string): (r: string)
    requires IsTimestamp(s)
    ensures |r| == 10
    ensures r == s[0..4] + "-" + s[5..7] + "-" + s[8..10]
  {
    var dt := ParseTimestamp(s);
    PadOfNumber(s[0..4]);
    PadOfNumber(s[5..7]);
    PadOfNumber(s[8..10]);
    FormatDate(dt)
  }

  /** Where each field of "YYYY/MM/DD HH:MM:SS" lies once the six fields are joined. */
  lemma TimestampLayout(y: string, mo: string, d: string, h: string, mi: string, sec: string)
    requires |y| == 4 && |mo| == 2 && |d| == 2 && |h| == 2 && |mi| == 2 && |sec| == 2
    ensures var s := y + "/" + mo + "/" + d + " " + h + ":" + mi + ":" + sec;
            && |s| == 19 && s[4] == '/' && s[7] == '/' && s[10] == ' ' && s[13] == ':' && s[16] == ':'
            && s[0..4] == y && s[5..7] == mo && s[8..10] == d && s[11..13] == h && s[14..16] == mi && s[17..19] == sec
  {
    var date := y + "/" + mo + "/" + d;
    var time := h + ":" + mi + ":" + sec;
    assert y + "/" + mo + "/" + d + " " + h + ":" + mi + ":" + sec == date + " " + time;
    assert date[0..4] == y && date[5..7] == mo && date[8..10] == d;
    assert time[0..2] == h && time[3..5] == mi && time[6..8] == sec;
    var s := date + " " + time;
    assert s[0..10] == date && s[11..19] == time;
  }

  /** Printing a date and time and parsing it back gives it again. */
  lemma {:induction false} TimestampRoundTrip(dt: DateTime)
    requires ValidDateTime(dt)
    ensures HasTimestampShape(FormatTimestamp(dt))
    ensures ParseTimestamp(FormatTimestamp(dt)) == dt
  {
    TimestampLayout(Pad(dt.year, 4), Pad(dt.month, 2), Pad(dt.day, 2), Pad(dt.hour, 2), Pad(dt.minute, 2), Pad(dt.second, 2));
    assert Pow10(2) == 100 && Pow10(4) == 10000;
    NumberOfPad(dt.year, 4);
    NumberOfPad(dt.month, 2);
    NumberOfPad(dt.day, 2);
    NumberOfPad(dt.hour, 2);
    NumberOfPad(dt.minute, 2);
    NumberOfPad(dt.second, 2);
  }

  /** Converting the printed timestamp of any date and time gives that date printed as "YYYY-MM-DD". */
  lemma ConvertTimeFormatOfTimestamp(dt: DateTime)
    requires ValidDateTime(dt)
    ensures IsTimestamp(FormatTimestamp(dt)) && ConvertTimeFormat(FormatTimestamp(dt)) == FormatDate(dt)
  {
    TimestampRoundTrip(dt);
  }

  // ---------------------------------------------------------------------------------------------
  // The output of the extraction-and-retrieval chain (`_create_chain_ner`)

  /** The parsed JSON object of the extraction step: placeholder keys to strings or null. */
  type Keys = map<string, Option<string>>

  /** The "retriever" part of the chain's output: the aggregated metadata of the retrieved documents. */
  datatype Retrieved = Retrieved(sql: seq<Value>, question: seq<Value>, category: seq<Value>, score: seq<Value>)

  /** The chain's output: the dictionary {"keys": parsed keys, "retriever": aggregated retrieval}. */
  datatype NerResult = NerResult(keys: Keys, retriever: Retrieved)

  /** The keys of the chain's output dictionary: `x in result` tests these. */
  function ResultKeys(r: NerResult): (ks: set<string>)
    ensures ks == {"keys", "retriever"} && |ks| == 2
    ensures Sentinel !in ks
  {
    {"keys", "retriever"}
  }

  /** The aggregations of the retrieval chain, in the order the dictionary lists them; the first fault is raised. */
  function Aggregate(keys: Keys, docs: seq<Metadata>): (r: Result<NerResult, Fault>)
    ensures r.Success? <==>
              && GetMetadata(docs, ["SQL1", "SQL2", "SQL3"]).Success? && GetMetadata(docs, ["問題類別"]).Success?
              && GetMetadata(docs, ["category"]).Success? && GetMetadata(docs, ["score"]).Success?
    ensures r.Success? ==>
              && r.value.keys == keys
              && GetMetadata(docs, ["SQL1", "SQL2", "SQL3"]) == Success(r.value.retriever.sql)
              && GetMetadata(docs, ["問題類別"]) == Success(r.value.retriever.question)
              && GetMetadata(docs, ["category"]) == Success(r.value.retriever.category)
              && GetMetadata(docs, ["score"]) == Success(r.value.retriever.score)
  {
    var sql := GetMetadataRunnable(["SQL1", "SQL2", "SQL3"])(docs);
    var question := GetMetadataRunnable(["問題類別"])(docs);
    var category := GetMetadataRunnable(["category"])(docs);
    var score := GetMetadataRunnable(["score"])(docs);
    if sql.Failure? then Failure(sql.error)
    else if question.Failure? then Failure(question.error)
    else if category.Failure? then Failure(category.error)
    else if score.Failure? then Failure(score.error)
    else Success(NerResult(keys, Retrieved(sql.value, question.value, category.value, score.value)))
  }

  /**
   * Invoking the chain on `question`: the extraction step gets the question and the reference date under
   * `dateKey`; its "modify_query" entry is the search text; the hits get their scores attached and are
   * aggregated.
   */
  function InvokeChainNer(question: string, dateKey: string, date: string,
                          extract: map<string, string> -> Result<Keys, Fault>,
                          similarity: Option<string> -> Result<seq<(Metadata, int)>, Fault>): (r: Result<NerResult, Fault>)
    ensures var ex := extract(map["question" := question, dateKey := date]);
            ex.Failure? ==> r == Failure(ex.error)
    ensures var ex := extract(map["question" := question, dateKey := date]);
            ex.Success? && "modify_query" !in ex.value ==> r == Failure(KeyError("modify_query"))
    // with a search text, a fault of the similarity search is raised unchanged; its hits are scored and aggregated
    ensures var ex := extract(map["question" := question, dateKey := date]);
            ex.Success? && "modify_query" in ex.value && similarity(ex.value["modify_query"]).Failure?
            ==> r == Failure(similarity(ex.value["modify_query"]).error)
    ensures var ex := extract(map["question" := question, dateKey := date]);
            ex.Success? && "modify_query" in ex.value && similarity(ex.value["modify_query"]).Success?
            ==> r == Aggregate(ex.value, WithScores(similarity(ex.value["modify_query"]).value))
  {
    match extract(map["question" := question, dateKey := date])
    case Failure(e) => Failure(e)
    case Success(keys) =>
      if "modify_query" !in keys then Failure(KeyError("modify_query"))
      else match similarity(keys["modify_query"])
        case Failure(e) => Failure(e)
        case Success(hits) => Aggregate(keys, WithScores(hits))
  }

  /** The chain as the one-argument runnable `search` invokes. */
  function Ner(dateKey: string, date: string,
               extract: map<string, string> -> Result<Keys, Fault>,
               similarity: Option<string> -> Result<seq<(Metadata, int)>, Fault>): string -> Result<NerResult, Fault>
  {
    question => InvokeChainNer(question, dateKey, date, extract, similarity)
  }

  /** The largest score among the hits. */
  function BestScore(hits: seq<(Metadata, int)>): (m: int)
    requires hits != []
    ensures (exists i :: 0 <= i < |hits| && m == hits[i].1) && forall i :: 0 <= i < |hits| ==> hits[i].1 <= m
  {
    if |hits| == 1 then hits[0].1
    else
      var rest := BestScore(hits[1..]);
      assert forall i :: 1 <= i < |hits| ==> hits[1..][i - 1] == hits[i];
      if hits[0].1 >= rest then hits[0].1 else rest
  }

  /** Every document of a scored result set carries its numeric score under "score". */
  lemma ScoresPresent(hits: seq<(Metadata, int)>)
    ensures var docs := WithScores(hits);
            forall i :: 0 <= i < |docs| ==> "score" in docs[i] && docs[i]["score"] == Num(hits[i].1)
  {
  }

  /** One hit: its score passes through `itemgetter` unchanged. */
  lemma SingleHitScore(hits: seq<(Metadata, int)>)
    requires |hits| == 1
    ensures GetMetadata(WithScores(hits), ["score"]) == Success([Num(hits[0].1)])
  {
    var docs := WithScores(hits);
    assert docs[0] == hits[0].0["score" := Num(hits[0].1)];
    var r := ItemGetter(docs[0], ["score"]);
    assert GetMetadata(docs, ["score"]) == r;
    assert r.value[0] == Num(hits[0].1);
    assert r.value == [r.value[0]];
  }

  /** Every scored document carries a numeric score, none above a bound on the hits' scores. */
  lemma ScoresBounded(hits: seq<(Metadata, int)>, best: int)
    requires forall i :: 0 <= i < |hits| ==> hits[i].1 <= best
    ensures var docs := WithScores(hits);
            forall i :: 0 <= i < |docs| ==> "score" in docs[i] && docs[i]["score"].Num? && docs[i]["score"].n <= best
  {
    ScoresPresent(hits);
  }

  /** Several hits: `max` over the score column gives the one score that no hit exceeds. */
  lemma SeveralHitsScore(hits: seq<(Metadata, int)>, best: int, j: nat)
    requires |hits| > 1 && j < |hits| && best == hits[j].1
    requires forall i :: 0 <= i < |hits| ==> hits[i].1 <= best
    ensures GetMetadata(WithScores(hits), ["score"]) == Success([Num(best)])
  {
    ScoresBounded(hits, best);
    ScoresPresent(hits);
    NumericKeyGivesValue(WithScores(hits), "score", best, j);
  }

  /** The aggregated score of a non-empty result set is the best hit's score alone. */
  lemma {:induction false} AggregatedScoreIsBest(hits: seq<(Metadata, int)>)
    requires hits != []
    ensures GetMetadata(WithScores(hits), ["score"]) == Success([Num(BestScore(hits))])
  {
    if |hits| == 1 {
      SingleHitScore(hits);
    } else {
      var b := BestScore(hits);
      var j :| 0 <= j < |hits| && b == hits[j].1;
      SeveralHitsScore(hits, b, j);
    }
  }

  /**
   * Once aggregation succeeds, the score list is empty exactly when the search found nothing; otherwise
   * it is the best hit's score alone, and the category list has exactly one entry.
   */
  lemma {:induction false} ScoreEmptyIffNoHits(keys: Keys, hits: seq<(Metadata, int)>)
    requires Aggregate(keys, WithScores(hits)).Success?
    ensures var res := Aggregate(keys, WithScores(hits)).value;
            (res.retriever.score == [] <==> hits == [])
            && (hits != [] ==> res.retriever.score == [Num(BestScore(hits))] && |res.retriever.category| == 1)
  {
    var docs := WithScores(hits);
    if hits != [] {
      AggregatedScoreIsBest(hits);
      OneEntryPerKey(docs, ["category"]);
    }
  }

  // ---------------------------------------------------------------------------------------------
  // The routing decision and the response template

  const LowSimilarity: string := "相似度過低"

  /** Python's IndexError for `[][0]`. */
  const EmptyIndexError: Fault := Raised("IndexError", "list index out of range")

  /** The outcome of one search, as the tagged variant the template encodes. */
  datatype Decision =
    | Blocked(reason: string)
    | LowConfidence
    | Matched(category: Value, startDate: Option<string>, endDate: Option<string>,
              store1: Option<string>, store2: Option<string>, categoryName: Option<string>, message: string)
    | Failed(fault: Fault)

  /** `dict.get(key, None)`: a missing key and a JSON null both give None. */
  function Get(keys: Keys, key: string): Option<string>
  {
    if key in keys then keys[key] else None
  }

  /**
   * The decision `search` takes, test by test in the source's order: a gate fault; the marker in the gate's
   * output; a chain fault; the marker among the chain output's keys; an empty score list; then the match,
   * where taking the first category may raise.
   */
  function Route(gate: Result<string, Fault>, ner: string -> Result<NerResult, Fault>): (d: Decision)
    ensures d.Blocked? ==> gate.Success? && d.reason == gate.value
    // a fault of the gate, or of the chain it passes, is the decision's fault, unchanged
    ensures gate.Failure? ==> d == Failed(gate.error)
    ensures gate.Success? && !Contains(gate.value, Sentinel) && ner(gate.value).Failure?
            ==> d == Failed(ner(gate.value).error)
    // no scores is low confidence; scores without a category raise IndexError at `[0]`
    ensures d == LowConfidence <==>
              && gate.Success? && !Contains(gate.value, Sentinel) && ner(gate.value).Success?
              && ner(gate.value).value.retriever.score == []
    ensures gate.Success? && !Contains(gate.value, Sentinel) && ner(gate.value).Success?
            && ner(gate.value).value.retriever.score != [] && ner(gate.value).value.retriever.category == []
            ==> d == Failed(EmptyIndexError)
    // a match needs a clean gate output, a chain result and at least one score and one category
    ensures d.Matched? <==>
              && gate.Success? && !Contains(gate.value, Sentinel) && ner(gate.value).Success?
              && ner(gate.value).value.retriever.score != [] && ner(gate.value).value.retriever.category != []
    // the matched fields are the first category, the extracted keys, and the gate's output
    ensures d.Matched? ==>
              var result := ner(gate.value).value;
              && d.category == result.retriever.category[0]
              && d.startDate == Get(result.keys, "&start_date") && d.endDate == Get(result.keys, "&end_date")
              && d.store1 == Get(result.keys, "&string1") && d.store2 == Get(result.keys, "&string2")
              && d.categoryName == Get(result.keys, "&string")
              && d.message == gate.value
  {
    match gate
    case Failure(e) => Failed(e)
    case Success(out) =>
      if Contains(out, Sentinel) then Blocked(out)
      else match ner(out)
        case Failure(e) => Failed(e)
        case Success(result) =>
          if Sentinel in ResultKeys(result) then Blocked(out)
          else if result.retriever.score == [] then LowConfidence
          else if result.retriever.category == [] then Failed(EmptyIndexError)
          else Matched(result.retriever.category[0],
                       Get(result.keys, "&start_date"), Get(result.keys, "&end_date"),
                       Get(result.keys, "&string1"), Get(result.keys, "&string2"),
                       Get(result.keys, "&string"), out)
  }

  /** The template dictionary `search` returns; the Python dict's None entries are `None`. */
  datatype Template = Template(tid: Option<Value>, blockReason: Option<Reason>,
                               startDate: Option<string>, endDate: Option<string>,
                               storeName: seq<Option<string>>, categoryName: seq<Option<string>>,
                               message: Option<string>)

  datatype ChatResponse = ChatResponse(sessionId: string, customerId: string, template: Template)

  /** The template before any test: every scalar None, each name list a single None. */
  const InitialTemplate: Template := Template(None, None, None, None, [None], [None], None)

  /** The template `search` fills in for a decision. */
  function Render(d: Decision): (t: Template)
    ensures !d.Matched? ==> t.startDate == t.endDate == t.message == None
                            && t.storeName == [None] && t.categoryName == [None]
    ensures d.Blocked? ==> t.tid == Some(Str("98")) && t.blockReason == Some(Said(d.reason))
    ensures d.LowConfidence? ==> t.tid == Some(Str("99")) && t.blockReason == Some(Said(LowSimilarity))
    ensures d.Failed? ==> t.tid == Some(Str("99")) && t.blockReason == Some(Caught(d.fault))
    ensures d.Matched? ==>
              && t.tid == Some(d.category) && t.blockReason == None
              && t.startDate == d.startDate && t.endDate == d.endDate
              && t.storeName == [d.store1, d.store2] && t.categoryName == [d.categoryName]
              && t.message == Some(d.message)
  {
    match d
    case Blocked(reason) => InitialTemplate.(tid := Some(Str("98")), blockReason := Some(Said(reason)))
    case LowConfidence => InitialTemplate.(tid := Some(Str("99")), blockReason := Some(Said(LowSimilarity)))
    case Failed(e) => InitialTemplate.(tid := Some(Str("99")), blockReason := Some(Caught(e)))
    case Matched(category, startDate, endDate, store1, store2, categoryName, message) =>
      Template(Some(category), None, startDate, endDate, [store1, store2], [categoryName], Some(message))
  }

  /** Reads the decision back from a template: the tid and the block reason tell the four outcomes apart. */
  function Decode(t: Template): Option<Decision>
  {
    match t.blockReason
    case Some(Caught(e)) => Some(Failed(e))
    case Some(Said(reason)) =>
      if t.tid == Some(Str("98")) then Some(Blocked(reason))
      else if t.tid == Some(Str("99")) && reason == LowSimilarity then Some(LowConfidence)
      else None
    case None =>
      if t.tid.Some? && |t.storeName| == 2 && |t.categoryName| == 1 && t.message.Some? then
        Some(Matched(t.tid.value, t.startDate, t.endDate, t.storeName[0], t.storeName[1],
                     t.categoryName[0], t.message.value))
      else None
  }

  /** No information is lost in the template: the decision can be read back from it. */
  lemma RenderDecodes(d: Decision)
    ensures Decode(Render(d)) == Some(d)
  {
  }

  /** The second marker test looks for the marker among the output dictionary's keys, so it never fires. */
  lemma SecondSentinelTestNeverFires(result: NerResult)
    ensures Sentinel !in ResultKeys(result)
  {
  }

  /** A search is blocked exactly when the gate's output contains the marker. */
  lemma BlockedIffGateSentinel(gate: Result<string, Fault>, ner: string -> Result<NerResult, Fault>)
    ensures Route(gate, ner).Blocked? <==> gate.Success? && Contains(gate.value, Sentinel)
  {
    if gate.Success? && !Contains(gate.value, Sentinel) && ner(gate.value).Success? {
      SecondSentinelTestNeverFires(ner(gate.value).value);
    }
  }

  /**
   * End to end: whatever raises, in the gate or in the chain, the template carries tid "99" and the
   * exception object itself as the block reason, and nothing else is filled in.
   */
  lemma FaultGivesNinetyNine(gate: Result<string, Fault>, ner: string -> Result<NerResult, Fault>, e: Fault)
    requires gate == Failure(e)
             || (gate.Success? && !Contains(gate.value, Sentinel) && ner(gate.value) == Failure(e))
    ensures Render(Route(gate, ner)) == InitialTemplate.(tid := Some(Str("99")), blockReason := Some(Caught(e)))
  {
  }

  /** When the gate blocks, the chain is not consulted: any two chains give the same decision. */
  lemma BlockedIgnoresChain(out: string, ner1: string -> Result<NerResult, Fault>, ner2: string -> Result<NerResult, Fault>)
    requires Contains(out, Sentinel)
    ensures Route(Success(out), ner1) == Route(Success(out), ner2) == Blocked(out)
  {
  }

  /**
   * End to end: the search is low-confidence exactly when the gate passes without the marker, the
   * extraction yields a "modify_query", the similarity search returns no hits and (as it then always does)
   * aggregation succeeds. A search with hits is never low-confidence, and never takes the IndexError path.
   */
  lemma {:induction false} LowConfidenceOnlyWithoutHits(
    gateOut: string, dateKey: string, date: string,
    extract: map<string, string> -> Result<Keys, Fault>,
    similarity: Option<string> -> Result<seq<(Metadata, int)>, Fault>)
    requires !Contains(gateOut, Sentinel)
    ensures var d := Route(Success(gateOut), Ner(dateKey, date, extract, similarity));
            var ex := extract(map["question" := gateOut, dateKey := date]);
            var res := Ner(dateKey, date, extract, similarity)(gateOut);
            (d == LowConfidence <==>
               ex.Success? && "modify_query" in ex.value
               && similarity(ex.value["modify_query"]) == Success([]))
            && (res.Success? && res.value.retriever.score != [] ==> res.value.retriever.category != [])
  {
    var ner := Ner(dateKey, date, extract, similarity);
    var ex := extract(map["question" := gateOut, dateKey := date]);
    if ex.Success? && "modify_query" in ex.value {
      var sr := similarity(ex.value["modify_query"]);
      if sr.Success? {
        var agg := Aggregate(ex.value, WithScores(sr.value));
        if sr.value == [] {
          assert WithScores(sr.value) == [];
        }
        if agg.Success? {
          ScoreEmptyIffNoHits(ex.value, sr.value);
          SecondSentinelTestNeverFires(agg.value);
        }
      }
    }
  }

  /**
   * End to end, the main path: a clean gate output, a search text, and one hit whose metadata carries the
   * SQL templates, the question and a category give a match on that category, with the extracted dates and
   * names, and the template's tid is that category.
   */
  lemma OneHitMatches(
    gateOut: string, dateKey: string, date: string,
    extract: map<string, string> -> Result<Keys, Fault>,
    similarity: Option<string> -> Result<seq<(Metadata, int)>, Fault>,
    md: Metadata, score: int)
    requires !Contains(gateOut, Sentinel)
    requires var ex := extract(map["question" := gateOut, dateKey := date]);
             ex.Success? && "modify_query" in ex.value && similarity(ex.value["modify_query"]) == Success([(md, score)])
    requires "SQL1" in md && "SQL2" in md && "SQL3" in md && "問題類別" in md && "category" in md
    ensures var keys := extract(map["question" := gateOut, dateKey := date]).value;
            var d := Route(Success(gateOut), Ner(dateKey, date, extract, similarity));
            && d == Matched(md["category"], Get(keys, "&start_date"), Get(keys, "&end_date"),
                            Get(keys, "&string1"), Get(keys, "&string2"), Get(keys, "&string"), gateOut)
            && Render(d).tid == Some(md["category"])
  {
  }

  /**
   * `search` with the gate and the chain as parameters: fills the template field by field as the
   * decision unfolds, then always sets the session id, the customer id and the template.
   */
  method SearchTemplate(sessionId: string, customerId: string, userInput: string,
                gate: string -> Result<string, Fault>, ner: string -> Result<NerResult, Fault>)
    returns (response: ChatResponse)
    ensures response == ChatResponse(sessionId, customerId, Render(Route(gate(userInput), ner)))
  {
    var template := InitialTemplate;
    var gateOutcome := gate(userInput);
    if gateOutcome.Failure? {
      template := template.(tid := Some(Str("99")));
      template := template.(blockReason := Some(Caught(gateOutcome.error)));
    } else {
      var out := gateOutcome.value;
      if Contains(out, Sentinel) {
        template := template.(tid := Some(Str("98")));
        template := template.(blockReason := Some(Said(out)));
      } else {
        var outcome := ner(out);
        if outcome.Failure? {
          template := template.(tid := Some(Str("99")));
          template := template.(blockReason := Some(Caught(outcome.error)));
        } else {
          var result := outcome.value;
          if Sentinel in ResultKeys(result) {
            template := template.(tid := Some(Str("98")));
            template := template.(blockReason := Some(Said(out)));
          } else if result.retriever.score == [] {
            template := template.(tid := Some(Str("99")));
            template := template.(blockReason := Some(Said(LowSimilarity)));
          } else if result.retriever.category == [] {
            template := template.(tid := Some(Str("99")));
            template := template.(blockReason := Some(Caught(EmptyIndexError)));
          } else {
            template := template.(tid := Some(result.retriever.category[0]));
            template := template.(startDate := Get(result.keys, "&start_date"));
            template := template.(endDate := Get(result.keys, "&end_date"));
            template := template.(storeName := [Get(result.keys, "&string1"), Get(result.keys, "&string2")]);
            template := template.(categoryName := [Get(result.keys, "&string")]);
            template := template.(message := Some(out));
          }
        }
      }
    }
    response := ChatResponse(sessionId, customerId, template);
  }

  /** The pipeline object: its session, its customer and the reference date converted at construction. */
  class ChainNer {
    const sessionId: string
    const customerId: string
    const time: string

    constructor (sessionId: string, customerId: string, time: string)
      requires IsTimestamp(time)
      ensures this.sessionId == sessionId && this.customerId == customerId
      ensures this.time == ConvertTimeFormat(time)
    {
      this.time := ConvertTimeFormat(time);
      this.sessionId := sessionId;
      this.customerId := customerId;
    }

    /** `search`: the reference date reaches the extraction step under the prompt key "time". */
    method Search(userInput: string, gate: string -> Result<string, Fault>,
                  extract: map<string, string> -> Result<Keys, Fault>,
                  similarity: Option<string> -> Result<seq<(Metadata, int)>, Fault>)
      returns (response: ChatResponse)
      ensures response == ChatResponse(sessionId, customerId,
                                       Render(Route(gate(userInput), Ner("time", time, extract, similarity))))
    {
      response := SearchTemplate(sessionId, customerId, userInput, gate, Ner("time", time, extract, similarity));
    }
  }
}
