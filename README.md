# A verified model of the card-consumption assistant's deterministic core

The service answers card holders' questions about their spending.

A `/chat` request goes through `ChainNer.search`:
- a completion chain (the "gate") rewrites the question, or refuses it by writing the blocked marker "被阻擋";
- an extraction chain turns the rewritten question into placeholder keys;
- a vector-store search finds the closest stored question;
- the result is a template with tid "98" (blocked), tid "99" (low similarity or any exception), or the matched category id with the extracted dates and names.

A `/genai-response` request goes through `GenAIResponse.generate_answer`:
- it picks a tone from the customer id;
- it runs the answer chain;
- it returns the text with the caller's tid, or tid "98" with the reason.

An `/evaluate` request stores a rating row with up to three commit attempts. The pydantic models bound every request and response field. The application's exceptions carry a four-character code and a description.

This project models that logic in Dafny and proves what it promises. Every call to a language model, the vector store or the database is a function parameter:
- the gate is `string -> Result<string, Fault>`;
- the extraction is `map<string, string> -> Result<Keys, Fault>`;
- the similarity search is `Option<string> -> Result<seq<(Metadata, int)>, Fault>`;
- the answer chain is `PromptVars -> Result<string, Fault>`;
- the database's commit outcomes are `nat -> Option<Fault>`.

A `Failure` stands for the call raising.

Modules, one per source file:
- `Exceptions`: src/app/setting/exceptions.py.
- `Strings`: Python's substring test.
- `RetrieverUtils`: src/app/setting/utils_retriever.py.
- `NerChain`: src/app/gai_executors/chain_ner.py.
- `Api1`: src/app/api1.py.
- `GaiResponse`: src/app/gai_executors/gai_response.py.
- `Api2`: src/app/api2.py.
- `ResponseSchema`: src/app/schemas/response.py.
- `PayloadSchema`: src/app/schemas/payload.py.
- `InsertDb`: src/app/db/insert_db.py.

How the code is shaped:
- Code that fills a dictionary step by step, or mutates objects, is an imperative `method`: `search`, `generate_answer`, the retriever's score loop, `get_sql_querys` and the retry loop. Each method is proved equal to a specification function, and the properties are lemmas about that function.
- Code that only computes is a function: `_get_metadata`, `_set_tone`, `_convert_time_format`, the error table and the field validators.

## Model

| member | source | states |
|---|---|---|
| Exceptions.ClassOfCode | src/app/setting/exceptions.py:9-36 | the class looked up for a code has exactly that `error_code` |
| Exceptions.FmtMsg | src/app/setting/exceptions.py:39-40 | the message is the class name, then ", ", then `str(e)`, with nothing else |
| Exceptions.CodesHaveFourCharacters | src/app/setting/exceptions.py:1-36 | every class's `error_code` is four characters long |
| Exceptions.DescriptionsFitFifty | src/app/setting/exceptions.py:1-36 | every class's `error_describe` has at most 50 characters |
| Exceptions.CodeIdentifiesClass | src/app/setting/exceptions.py:9-36 | looking a class's code up again gives back that class |
| Exceptions.CodesDistinct | src/app/setting/exceptions.py:9-36 | two classes share a code only if they are the same class |
| Exceptions.Str | src/app/setting/exceptions.py:5-6 | `str()` of a raised Python error is its message; `str()` of an application exception is "[", its class's code, "]:", its class's description, " - ", then `str()` of its argument, each part at its stated position |
| Exceptions.ArgStr | src/app/setting/exceptions.py:5-6 | `str()` of an exception's argument: empty without one, the text itself, or `str()` of the wrapped exception |
| Exceptions.MessageCarriesCode | src/app/setting/exceptions.py:5-6 | `str()` of an application exception holds its code between "[" and "]:", and that code identifies the class |
| Exceptions.WrappedMessage | src/app/setting/exceptions.py:5-6 | an exception raised with another exception as its argument ends its message with that exception's message |
| Strings.ContainsLength | src/app/gai_executors/chain_ner.py:53 | a text containing the marker is at least as long as the marker |
| Strings.ContainsAt | src/app/gai_executors/chain_ner.py:53 | the substring test holds exactly when the marker occurs at some position |
| RetrieverUtils.ItemGetter | src/app/setting/utils_retriever.py:32 | succeeds exactly when every key is present; then gives each key's value in key order; otherwise gives the KeyError of the first missing key |
| RetrieverUtils.Tuples | src/app/setting/utils_retriever.py:34 | succeeds exactly when every document has the keys; then gives one tuple per document, in document order; otherwise raises the KeyError of the first document lacking a key |
| RetrieverUtils.MaxNum | src/app/setting/utils_retriever.py:37 | succeeds exactly when every value is a number; the result is one of the values and no value exceeds it; otherwise the mixed-type TypeError |
| RetrieverUtils.MostCommon | src/app/setting/utils_retriever.py:39-40 | the result occurs in the list, no value occurs more often, and among equally frequent values it is the one seen first |
| RetrieverUtils.GetMetadata | src/app/setting/utils_retriever.py:28-42 | no documents give `[]` whatever the keys; documents with no keys give the itemgetter TypeError; a document lacking a key raises the lookup's KeyError |
| RetrieverUtils.MissingKeyRaises | src/app/setting/utils_retriever.py:31-34 | when some document lacks a requested key, the lookup raises the KeyError of the first missing key of the first document lacking one |
| RetrieverUtils.OneEntryPerKey | src/app/setting/utils_retriever.py:31-42 | a successful lookup on a non-empty result set gives exactly one entry per key |
| RetrieverUtils.SucceedsWhenKeysPresent | src/app/setting/utils_retriever.py:31-42 | when every document has every key, the lookup fails only where `max` meets a non-number |
| RetrieverUtils.SingleDocumentPassesThrough | src/app/setting/utils_retriever.py:31-42 | one document gives its own values for the keys, unchanged and in key order |
| RetrieverUtils.NumericKeyGivesMax | src/app/setting/utils_retriever.py:34-37 | several documents with one numeric key give the single largest value |
| RetrieverUtils.MixedNumericKeyRaises | src/app/setting/utils_retriever.py:36-37 | a numeric first value with a non-number later makes `max` raise |
| RetrieverUtils.OtherwiseMostCommonTuple | src/app/setting/utils_retriever.py:38-42 | with several keys, or a non-numeric first value, the result is the most frequent whole key tuple, earliest first among ties |
| RetrieverUtils.TupleModeIsNotColumnMode | src/app/setting/utils_retriever.py:34-42 | a worked case: the mode is taken over whole tuples, so a column's commoner value can lose |
| RetrieverUtils.CreatePartialFunc | src/app/setting/utils_retriever.py:45-62 | the partial function gives, on every input, what the function gives with the fixed keys |
| RetrieverUtils.GetMetadataRunnable | src/app/setting/utils_retriever.py:65-76 | the runnable gives `_get_metadata` with the fixed keys on every input |
| RetrieverUtils.WithScores | src/app/setting/utils_retriever.py:134-139 | one metadata per hit, in order, each the hit's metadata with "score" set to its score and nothing else changed |
| RetrieverUtils.RetrieveWithScore | src/app/setting/utils_retriever.py:120-139 | returns the documents in search order; afterwards each document's metadata is its old metadata with its own score under "score" |
| RetrieverUtils.GetSqlQueries | src/app/setting/utils_retriever.py:79-100 | the caller's key table gains "&CustomerID" = user id and nothing else; one query per template, in order, each made from the updated keys |
| NerChain.Pad | src/app/gai_executors/chain_ner.py:100 | a zero-padded field has exactly the requested width and only digits |
| NerChain.NumberOfPad | src/app/gai_executors/chain_ner.py:99-100 | reading a zero-padded field back gives the number |
| NerChain.PadOfNumber | src/app/gai_executors/chain_ner.py:99-100 | padding a digit string's value to its width gives the string back |
| NerChain.ParseTimestamp | src/app/gai_executors/chain_ner.py:99 | `strptime` reads the six zero-padded fields of "YYYY/MM/DD HH:MM:SS" as numbers |
| NerChain.FormatDate | src/app/gai_executors/chain_ner.py:100 | `strftime("%Y-%m-%d")` gives ten characters: four digits, "-", two digits, "-", two digits |
| NerChain.ConvertTimeFormat | src/app/gai_executors/chain_ner.py:97-100 | the result is 10 characters: the year, month and day of the input joined by "-", with the time of day dropped |
| NerChain.TimestampRoundTrip | src/app/gai_executors/chain_ner.py:97-100 | a valid date-time printed as "YYYY/MM/DD HH:MM:SS" parses back to itself |
| NerChain.ConvertTimeFormatOfTimestamp | src/app/gai_executors/chain_ner.py:97-100 | converting a printed timestamp gives the same date printed as "YYYY-MM-DD" |
| NerChain.ScoresPresent | src/app/setting/utils_retriever.py:134-137 | every scored document carries its own score under "score" |
| NerChain.AggregatedScoreIsBest | src/app/gai_executors/chain_ner.py:167 | for a non-empty result set, the aggregated score list is the best hit's score alone |
| NerChain.ResultKeys | src/app/gai_executors/chain_ner.py:171-181 | the chain's output dictionary has exactly the keys "keys" and "retriever", and never the blocked marker |
| NerChain.Aggregate | src/app/gai_executors/chain_ner.py:160-169 | succeeds exactly when the four `_get_metadata` lookups (the three SQL keys, the standard question, category, score) all succeed; then it carries the extracted keys and each lookup's result under its own name |
| NerChain.InvokeChainNer | src/app/gai_executors/chain_ner.py:153-181 | the extraction receives the question and the date; its fault, or a missing "modify_query" KeyError, is the chain's fault; with a search text, a fault of the similarity search is raised unchanged, and its hits are scored and aggregated with the extracted keys |
| NerChain.ScoreEmptyIffNoHits | src/app/gai_executors/chain_ner.py:160-169 | after aggregation, the score list is empty exactly when the search found nothing; otherwise there is one best score and one category |
| NerChain.Route | src/app/gai_executors/chain_ner.py:52-87 | a gate fault, or a chain fault after a clean gate, becomes a failure with that same fault; a blocked decision's reason is the gate's output; low confidence exactly when the chain succeeds with no score; no category with a score is the empty-index error; matched exactly when the chain succeeds with a score and a category, and then the decision takes `category[0]`, "&start_date", "&end_date", "&string1", "&string2", "&string" and the gate's output as message |
| NerChain.Render | src/app/gai_executors/chain_ner.py:42-87 | blocked gives tid "98" with the gate's text as reason; low confidence gives tid "99" with the low-similarity reason; a fault gives tid "99" with the fault as reason; unmatched templates keep the initial dates, message and one-slot name lists; a matched template has the category as tid, no reason, its dates, the two store names, the category name and the message |
| NerChain.FaultGivesNinetyNine | src/app/gai_executors/chain_ner.py:85-87 | a fault of the gate, or of the chain after a clean gate, fills the initial template with tid "99" and the fault as reason |
| NerChain.RenderDecodes | src/app/gai_executors/chain_ner.py:42-87 | the decision can always be read back from the template it fills |
| NerChain.SecondSentinelTestNeverFires | src/app/gai_executors/chain_ner.py:63 | the marker is never a key of the chain's output, whose only keys are "keys" and "retriever" |
| NerChain.BlockedIffGateSentinel | src/app/gai_executors/chain_ner.py:53-66 | a search is blocked exactly when the gate's output contains the marker |
| NerChain.BlockedIgnoresChain | src/app/gai_executors/chain_ner.py:53-62 | a blocked search is decided without the extraction chain: any two chains give the same blocked decision |
| NerChain.LowConfidenceOnlyWithoutHits | src/app/gai_executors/chain_ner.py:68-71 | a search is low-confidence exactly when the search query exists and the similarity search returns no hits; with hits, the category list is never empty |
| NerChain.OneHitMatches | src/app/gai_executors/chain_ner.py:73-83 | a clean gate output, a search text and one hit carrying the SQL templates, question and category give a match on that category, with the extracted dates and names and the gate output as message; the template's tid is the category |
| NerChain.SearchTemplate | src/app/gai_executors/chain_ner.py:40-95 | the response filled field by field is the rendered routing decision, with the session and customer ids |
| NerChain.ChainNer.constructor | src/app/gai_executors/chain_ner.py:19-38 | the object keeps the ids and the reference time converted to "YYYY-MM-DD" |
| NerChain.ChainNer.Search | src/app/gai_executors/chain_ner.py:40-95 | `search` answers with the rendered decision of the gate and the chain, which receives the date under "time" |
| Api1.ChainNer.constructor | src/app/api1.py:21-39 | the object keeps the ids and the reference date converted to "YYYY-MM-DD" |
| Api1.ChainNer.Search | src/app/api1.py:42-97 | the same decision and template as the service's `search`, with the date passed under "today" |
| Api1.ScriptTodayConverts | src/app/api1.py:185 | the script's date "2024/05/01 14:00:03" is a well-formed timestamp and converts to "2024-05-01" |
| GaiResponse.SetTone | src/app/gai_executors/gai_response.py:30-36 | "A" gets the premium label, "B" the key-account label, and every other id (and only those) the regular label |
| GaiResponse.Prompt | src/app/gai_executors/gai_response.py:55-65 | the prompt carries the message, consumption count, total amount, store names, category names and tone it is given; its description is present exactly when the tone has one |
| GaiResponse.Answer | src/app/gai_executors/gai_response.py:49-84 | the message is set exactly when the text is free of the marker, and then with the caller's tid and no reason; otherwise tid "98" with a reason; the chain's outcome can be read back |
| GaiResponse.FaultAndRefusalShareTid | src/app/gai_executors/gai_response.py:67-78 | a fault and a refusal both give tid "98" (not "99"); their responses still differ |
| GaiResponse.GenAIResponse.constructor | src/app/gai_executors/gai_response.py:10-14 | the tone is fixed at construction from the customer id |
| GaiResponse.GenAIResponse.GenerateAnswer | src/app/gai_executors/gai_response.py:38-84 | the response built in steps is the specified answer for the chain's outcome on the object's own tone |
| Api2.GenAIResponse.constructor | src/app/api2.py:15-18 | the object keeps the ids |
| Api2.GenAIResponse.GenerateAnswer | src/app/api2.py:34-81 | the same answer as the tone-keeping variant, with the tone passed in |
| ResponseSchema.MWHeaderValid | src/app/schemas/response.py:7-14 | a header passes when MSGID, SOURCECHANNEL, TXNSEQ, RETURNCODE, RETURNDESC, ERRORHISTORY and O360SEQ fit 20, 20, 50, 4, 50, 50 and 36 characters, the optional ones possibly null |
| ResponseSchema.DefinedErrorFitsHeader | src/app/schemas/response.py:7-14 | writing any application exception's code and description into a valid header keeps it valid |
| ResponseSchema.BaseGenaiTemplateValid | src/app/schemas/response.py:21-23 | the tid is a string of at most two characters; the block reason is null or such a string |
| ResponseSchema.ChatTemplateValid | src/app/schemas/response.py:27-31 | the base template's bounds, non-null dates of at most ten characters, and name lists without null entries |
| ResponseSchema.ChatTranRSValid | src/app/schemas/response.py:38-41 | session id at most 12 characters, customer id at most 10, and a valid chat template |
| ResponseSchema.GenAIModelValid | src/app/schemas/response.py:44-45 | the generated message is a non-null string |
| ResponseSchema.GenAIResponseTranRSValid | src/app/schemas/response.py:52-56 | the id bounds, a valid generated message and a valid base template |
| ResponseSchema.BlockedReasonNeverFits | src/app/schemas/response.py:23 | a reason containing the marker exceeds the two characters a block reason may have |
| ResponseSchema.LowConfidenceRejected | src/app/schemas/response.py:21-31 | the low-confidence template fails the chat template model: a five-character reason and null dates |
| ResponseSchema.RenderedTemplateValidIff | src/app/schemas/response.py:21-31 | a rendered template passes exactly when the search matched, the tid is a short string, both dates fit and every name slot is filled |
| ResponseSchema.ValidSearchWasNotBlocked | src/app/schemas/response.py:38-41 | a search response the chat response model accepts comes from a matched, unblocked search |
| ResponseSchema.AnswerValidIff | src/app/schemas/response.py:44-56 | an answer passes exactly when the ids fit, the tid fits, and the chain produced text without the marker |
| ResponseSchema.RefusedTemplateRejected | src/app/schemas/response.py:21-23 | a refused answer's template fails on its reason alone |
| PayloadSchema.RequestHeaderValid | src/app/schemas/payload.py:6-9 | MSGID, SOURCECHANNEL and TXNSEQ fit 20, 20 and 50 characters, MSGID possibly null |
| PayloadSchema.BaseTranRqValid | src/app/schemas/payload.py:12-15 | session id at most 12 characters, customer id at most 10, time at most 20 |
| PayloadSchema.ChatTranRqValid | src/app/schemas/payload.py:19-20 | the base bounds; the message is any string |
| PayloadSchema.GenaiTranRqValid | src/app/schemas/payload.py:23-30 | the base bounds, a tid of at most two characters, a non-negative count, an amount within 20 digits and 2 decimal places, and dates of at most ten characters; the name lists hold strings by their type |
| PayloadSchema.EvaluateTranRqValid | src/app/schemas/payload.py:33-34 | the base bounds; the rating is a boolean |
| PayloadSchema.DigitCount | src/app/schemas/payload.py:26 | a decimal's counted digits are its digits plus a non-negative exponent, or else the larger of its digit count and its decimal places; its decimal places are minus a negative exponent, or zero, and never exceed the digits |
| PayloadSchema.DecimalFits | src/app/schemas/payload.py:26 | `condecimal` accepts a decimal of decimal digits when its counted digits fit `max_digits`, its decimal places fit `decimal_places`, and its whole digits fit the difference |
| PayloadSchema.AmountBoundsIff | src/app/schemas/payload.py:26 | an amount passes exactly when it has at most two decimal places and at most 18 whole digits |
| PayloadSchema.NineteenWholeDigitsRejected | src/app/schemas/payload.py:26 | an amount of nineteen whole digits is rejected |
| PayloadSchema.ThreeDecimalPlacesRejected | src/app/schemas/payload.py:26 | an amount with three decimal places is rejected |
| PayloadSchema.AmountWithinBoundsAccepted | src/app/schemas/payload.py:26 | an amount of at most 18 whole digits and at most two decimal places is accepted |
| PayloadSchema.BaseAdmitsUnparsableTime | src/app/schemas/payload.py:12-15 | the time field is bounded only in length, so a valid request may carry a time that cannot be parsed |
| PayloadSchema.ExamplesValid | src/app/schemas/payload.py:36-100 | the three example requests and their header satisfy every bound; 24000.38 counts 7 digits, 2 of them decimal places |
| PayloadSchema.ExampleTimesConvert | src/app/schemas/payload.py:39-77 | both example times are well-formed timestamps and convert to "2024-09-02" |
| InsertDb.Attempts | src/app/db/insert_db.py:18-32 | each attempt adds the row and commits; a success closes and stops, a failure rolls back, closes and tries again while retries remain |
| InsertDb.InsertLog | src/app/db/insert_db.py:15-32 | the session is begun, runs at most three attempts, and is closed once more when the `with` block ends |
| InsertDb.Outcome | src/app/db/insert_db.py:17-30 | an error comes only after the first attempt failed; it is the insert error wrapping the failure of the last attempt |
| InsertDb.AttemptCount | src/app/db/insert_db.py:17-27 | never more attempts than retries, and at least one when any retry is left |
| InsertDb.InsertEvaluation | src/app/db/insert_db.py:10-32 | the session sees exactly the specified begin, attempts and closes; the call returns the specified outcome |
| InsertDb.AtMostThreeAttempts | src/app/db/insert_db.py:14-27 | the session is begun first and closed last; it adds once per attempt, at most three times, always the same row |
| InsertDb.FailedCommitRolledBack | src/app/db/insert_db.py:24-32 | every failed commit is followed at once by a rollback and a close |
| InsertDb.NoAttemptAfterSuccess | src/app/db/insert_db.py:20-23 | after a successful commit only the two closes follow |
| InsertDb.OutcomeOfThreeCommits | src/app/db/insert_db.py:17-30 | success exactly when one of the first three commits succeeds; else the insert error wrapping the third failure; one attempt per failure plus one |
| InsertDb.AsWrittenRun | src/app/db/insert_db.py:19-32 | as written, exactly one row is added and the call always ends in the logger's TypeError |
| InsertDb.LoggingDefeatsRetry | src/app/db/insert_db.py:22-29 | where the intended loop retries and succeeds, or succeeds at once, the code as written raises after one attempt |

## Left out

- The language models, the vector store and the database are parameters; nothing is known about what they return. The prompts, parsers and session-history writes of the chains are not modelled.
- src/app/main.py (the web handlers), logging and the telemetry decorators are not part of this model. So are the vector-store and embedding clients, the ORM declaration and the configuration.
- The `k` cap and the score threshold of the similarity search are applied inside the vector store and are not modelled.
- Relevance scores are floats in the service; here they are integers. Only their order and presence matter.
- Metadata values are numbers or strings. Python treats `bool` as a number and compares floats with ints; the model does neither. Any later non-number under `max` counts as a TypeError.
- The JSON values the extraction yields are strings or null; other JSON types are not modelled.
- When several aggregations of the retrieval step raise, the model surfaces the first in dictionary order. The runnable library may surface another.
- `replace_sql_query` is called but defined nowhere in the repository, so it is a parameter. `CUST_DESC` lives in a constants module that is not part of this model, so the description table is a parameter.
- The KeyError message is the key in quotes; Python's repr escaping inside the key is not modelled.
- NerChain.ConvertTimeFormat: requires a zero-padded "YYYY/MM/DD HH:MM:SS" with a valid date and a year from 1000 to 9999. `strptime` also accepts unpadded fields, and rejects everything else with ValueError; neither of those cases is modelled.
- NerChain.ChainNer.constructor: requires a well-formed timestamp, for the same reason; the ValueError an unparsable time raises is not modelled.
- Api1.ChainNer.constructor: requires a well-formed timestamp, as above.
- RetrieverUtils.RetrieveWithScore: requires the search to return distinct document objects, as the vector store does. If one object came back twice, both scores would be written into it, and the last would win.
- ResponseSchema.RenderedTemplateValidIff: counts a numeric category id as an invalid tid. Depending on its version, pydantic may coerce a number to a string.
- The `message` key of the chat template is not a field of the response model, and its value is not checked.
- PromptVars: `consumptionNumber` and `totalAmount` are strings, as `generate_answer`'s annotations say, although the request carries a number. They are only placed in the prompt.
- InsertDb.InsertEvaluation: an `add` that raises is treated as a failed commit. Building the row from the request dictionary, with the errors that can raise, is not modelled. Reusing a closed session relies on SQLAlchemy starting a new transaction.
- InsertDb.InsertEvaluation: models the loop with the logger calls doing nothing. The calls as written are modelled separately; see Findings.
- `EvaluateTranRS` and the outer response wrappers only combine the modelled parts and are not modelled separately.

## Findings

| source | as written | input that shows it | evidently intended | confidence | as-written member | corrected member |
|---|---|---|---|---|---|---|
| src/app/db/insert_db.py:22-29 | Every logger call passes `extra={obj}`, a set display holding the request dictionary. Building it raises TypeError (unhashable dict) right after the first commit, and again in the handler. So the loop never retries, and a successful insert is still reported as an error | a first commit that fails and a second that would succeed; or a first commit that succeeds | `extra=obj`: log, retry up to three times, and return normally after a successful commit | high; not executed | InsertDb.AsWrittenRun, InsertDb.LoggingDefeatsRetry | InsertDb.InsertEvaluation |
