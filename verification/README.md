# Library management core, modelled in Dafny

This project models the logic at the heart of a library-management web
application (an Express/PostgreSQL backend and a React frontend) and proves
properties of it. Its centre is the **book-recommendation pipeline**:

- the normaliser that maps a model's or a database row's fields onto a
  recommendation;
- the database fallback query builder;
- the model call with bounded retries, and the bracket-scanning JSON extractor;
- the prompt-template choice;
- one-row-per-item persistence of the recommendation history;
- the related-books merge;
- the route that clamps the limit, accepts the model's answer or falls back to
  the database, lists history pages and rejects entries after an ownership
  check.

Around it sit smaller pieces of logic, each separated from its I/O:

- the recursive log redaction of request bodies;
- the Ollama model-registry reconciliation, the model-pull progress handler
  and the health decision;
- the streaming chat handler, which reassembles lines from chunks, completes
  at most once and dispatches on the model type;
- the parameterised SQL filter and pagination builders of the book, borrow,
  admin and AI-admin routes;
- the import tally state machine, including abort-on-error;
- the menu-key and breadcrumb derivation and the announcement read set of the
  main layout.

## Modelling conventions

- **JavaScript values** are the datatype `Js.Json`: undefined, null, boolean,
  number (as `real`), string, array, and object as an ordered field list.
  - `Truthy`, `||` (`Or`), property access and object spread are written out
    with JavaScript's semantics.
  - `parseInt` results are `Option<int>`; `None` stands for NaN.
- **Collaborators the core only calls** are parameters:
  - the language-model call, modelled as a function from the attempt number to
    its outcome;
  - `JSON.parse`, a partial function;
  - database query results, as `Option` row sequences where `None` means the
    query threw;
  - the sets of item indices whose INSERT throws;
  - the status helpers `toCanonical`, `toZh` and `compatibleDbValues`;
  - the "is in the past" date test.
- **SQL** is modelled as text plus a parameter list.
  - Each condition is a datatype value carrying its placeholder number.
  - `Sql.Refers(k, params)` states that `$k` names an existing parameter.
- **Code that changes state in place** becomes classes:
  - the recommendation-history table, `HistoryStore.Table`;
  - the request whose `sanitizedBody` is set, `Sanitize.Request`;
  - the SSE response, `AiService.SseResponse`;
  - the stream handler with its buffer and completion flag,
    `AiService.OllamaStream`;
  - the layout's read-announcement state, `MainLayout.ReadAnnouncements`.
- **Source loops** are methods with loop invariants. Each is proved against a
  pure specification function, and the properties are lemmas about that
  function.

## Model

| member | source | states |
|---|---|---|
| RecLib.FirstTruthy | backend/src/lib/recommendations.js:4-13 | the result is the value of the first alias key holding a truthy value, in list order, else `""`; it is always truthy or `""` |
| RecLib.Normalize | backend/src/lib/recommendations.js:2-14 | id is `rec.id` when truthy, else `rec.recommendation_id` (not defaulted); title, author, call_number and reason are the first truthy alias in the listed order, else `""` |
| RecLib.NormalizeTotal | backend/src/lib/recommendations.js:4-13 | every defaulted field of a normalised record is truthy or `""` |
| RecLib.CallNumberPriority | backend/src/lib/recommendations.js:6-12 | `{callNumber:"B2", call_no:"A1"}` normalises to call number `"A1"`: call_no outranks callNumber whatever the field order |
| RecLib.EmptyAliasSkipped | backend/src/lib/recommendations.js:4 | an empty `title` counts as absent, so `name` supplies the title |
| RecLib.DocTypeColumn | backend/src/lib/recommendations.js:41 | the doc_type column of the borrow rows, position by position |
| RecLib.DistinctTruthy | backend/src/lib/recommendations.js:40-42 | `[...new Set(xs.filter(Boolean))]`: exactly the truthy values of the input, each once |
| RecLib.FirstIndex | backend/src/lib/recommendations.js:40-42 | the first position at which a value occurs |
| RecLib.DistinctTruthyOrder | backend/src/lib/recommendations.js:40-42 | the distinct values keep the order of their first occurrence |
| RecLib.DistinctTruthyStep | backend/src/lib/recommendations.js:40-42 | first-occurrence order survives appending one more row |
| RecLib.CollectDocTypes | backend/src/lib/recommendations.js:40-42 | the loop that collects doc types yields the distinct truthy doc types |
| RecLib.BuildFallbackQuery | backend/src/lib/recommendations.js:17-67 | a keyword gives one ILIKE condition over `$1` with params `["%kw%", limit]`; without one, history doc types give `doc_type = ANY($1)` with params `[docTypes, limit]`; otherwise there is no condition and params are `[limit]`; the limit is always last, its placeholder is `$params.length`, every condition's placeholder refers to an existing param, and the text always orders by publication_year DESC |
| RecLib.FallbackFor | backend/src/lib/recommendations.js:17-67 | the fallback query filters on at most one condition, every placeholder names an existing parameter, and the limit is always the last parameter |
| RecLib.KeywordIgnoresHistory | backend/src/lib/recommendations.js:32-38 | with a keyword, the borrow history has no effect on the query |
| RecLib.AuthorsIgnored | backend/src/lib/recommendations.js:43-56 | two histories with the same doc types give the same query: authors never reach the SQL or the params |
| RecService.AttemptContent | backend/src/services/recommendationService.js:41-46 | a transport error and a non-ok HTTP response are both failed attempts; an ok response yields `data.message.content` |
| RecService.CallFrom | backend/src/services/recommendationService.js:14-54 | starting at attempt k, the call returns the content of the first successful attempt, and throws exactly when every remaining attempt fails |
| RecService.CallSpec | backend/src/services/recommendationService.js:11-55 | at most `retries` attempts; the content of the first success is returned; the call rethrows iff every attempt, the last included, failed; with no attempt allowed it returns undefined |
| RecService.CallModel | backend/src/services/recommendationService.js:11-55 | the retry loop computes exactly `CallSpec` |
| RecService.CallDependsOnContentOnly | backend/src/services/recommendationService.js:41-52 | two models whose attempts agree on success and content give the same call result |
| RecService.BracketSlice | backend/src/services/recommendationService.js:60-63 | when the first `[` precedes the last `]`, the slice runs from one to the other, inclusive; when the last `]` comes first, `substring` swaps its bounds and the slice holds neither bracket |
| RecService.ExtractJsonArray | backend/src/services/recommendationService.js:58-71 | non-string input, a missing bracket or a failed parse give `[]`; otherwise the result is the parse of the bracket slice |
| RecService.ExtractMayReturnNonArray | backend/src/services/recommendationService.js:60-64 | for `"]5["` the extractor returns the number 5, not an array |
| RecService.RecentBooks | backend/src/services/recommendationService.js:74-97 | one entry per row, title and author defaulted to `""`; a failed query gives `[]` |
| RecService.HistoryLine | backend/src/services/recommendationService.js:120 | a history line contains the book's title and author |
| RecService.HistoryLines | backend/src/services/recommendationService.js:119-121 | one line per recent book, in order |
| RecService.HistoryTextHasEveryBook | backend/src/services/recommendationService.js:119-122 | the joined history text contains every book's line |
| RecService.UserPrompt | backend/src/services/recommendationService.js:116-138 | every template embeds the count; the prompt opens with the history exactly when there is history; a non-empty query appears quoted |
| RecService.KeywordHistoryShape | backend/src/services/recommendationService.js:122-123 | the history-plus-keyword template starts with the history and embeds the query and the count |
| RecService.HistoryOnlyShape | backend/src/services/recommendationService.js:129-130 | the history-only template starts with the history and embeds the count |
| RecService.KeywordOnlyShape | backend/src/services/recommendationService.js:133 | the keyword template does not open with the history and embeds the query and the count |
| RecService.GeneralShape | backend/src/services/recommendationService.js:136 | the general template does not open with the history and embeds the count |
| RecService.GetOllamaRecommendations | backend/src/services/recommendationService.js:141-157 | the model is called with retries = 2; a thrown call gives `[]`, a returned one the extractor's result; two failed attempts give `[]` |
| RecService.ItemColumns | backend/src/services/recommendationService.js:171-177 | a null or undefined item throws on property access; otherwise the title column is truthy or `""` |
| RecService.FirstFailure | backend/src/services/recommendationService.js:164-187 | the index of the first item whose insert throws, or the length when none does |
| RecService.RowsFor | backend/src/services/recommendationService.js:164-177 | one history row per saved item |
| RecService.RowsForAt | backend/src/services/recommendationService.js:171-177 | row j carries item j's columns and id `firstId + j` |
| RecService.SavedRows | backend/src/services/recommendationService.js:164-187 | the rows written are exactly those before the first failing insert |
| RecService.WithId | backend/src/services/recommendationService.js:178-181 | the item spread into an object, with its new id |
| RecService.WithIds | backend/src/services/recommendationService.js:178-181 | the returned list has one entry per saved item |
| RecService.WithIdsAt | backend/src/services/recommendationService.js:178-181 | entry j is item j with id `firstId + j` |
| RecService.InsertStep | backend/src/services/recommendationService.js:164-181 | one more successful insert extends the written rows by that item's row |
| RecService.WithIdsStep | backend/src/services/recommendationService.js:178-181 | one more item extends the returned list by that item with its id |
| RecService.SaveRecommendationHistory | backend/src/services/recommendationService.js:161-187 | a value that is not iterable throws and writes nothing; otherwise one insert per item in order, and the rows before the first failing insert stay written; it succeeds iff no insert fails, returning every item with its id attached in input order |
| RecService.InsertItem | backend/src/services/recommendationService.js:165-177 | one insert appends exactly one row with the next id |
| RecService.InsertNext | backend/src/services/recommendationService.js:164-181 | the loop body extends both the table and the returned list by item i |
| RecService.InsertAll | backend/src/services/recommendationService.js:164-187 | the loop stops at the first failing insert; success iff every item was inserted |
| RecService.RowsForDefaults | backend/src/services/recommendationService.js:171-177 | each written row has the reader, the model name and the id in sequence; title, author and reason are defaulted to `""` |
| RecService.GetBookRecommendations | backend/src/services/recommendationService.js:191-257 | a model name other than "ollama" (ASCII case-insensitive) yields an empty, unsuccessful answer; `success` holds iff the list is non-empty and saved; history is written only for a non-empty list; has_history reflects the recent books; a non-empty list whose save throws gives the error answer: success false, count 0, `[]` |
| RecService.Respond | backend/src/services/recommendationService.js:213-243 | the service's answer for a list: `[]` is unsuccessful with count 0; a list that is not non-empty writes nothing; success iff the list is non-empty and every insert goes through, and then the answer carries the items with their ids and the table gains one row per item; a list that passes the guard but is not saved whole (an insert throws, or it is not iterable) gives exactly the error answer: success false, count 0, `[]` and the error |
| RecService.ObjectWithLengthFails | backend/src/services/recommendationService.js:214-223 | `{"length": "5"}` passes `list && list.length > 0` but is not iterable, so it is never saved whole |
| RelatedBooks.Take | backend/src/services/recommendationService.js:327 | `slice(0, n)`: a prefix of the rows, min(n, length) long for n ≥ 0 and all but the last −n rows for negative n |
| RelatedBooks.Select | backend/src/services/recommendationService.js:330-337 | filtering candidates by membership in the chosen ids, in candidate order |
| RelatedBooks.SelectMembers | backend/src/services/recommendationService.js:330-337 | a row is selected iff it is a candidate whose id's membership equals the wanted flag |
| RelatedBooks.SelectPartition | backend/src/services/recommendationService.js:330-337 | the chosen and unchosen rows together are a permutation of the candidates |
| RelatedBooks.SelectSizes | backend/src/services/recommendationService.js:330-337 | the two filters' sizes add up to the number of candidates |
| RelatedBooks.PicksAreWhatPasses | backend/src/services/recommendationService.js:326 | the guard lets through exactly truthy arrays or strings whose length is not 0 |
| RelatedBooks.MergeKeepsPicks | backend/src/services/recommendationService.js:330-341 | the result starts with every chosen candidate, in candidate order and never trimmed; the rest are unchosen candidates |
| RelatedBooks.Merge | backend/src/services/recommendationService.js:325-344 | without picks the answer is the leading candidates, `min(limit, candidates)` of them for a non-negative limit |
| RelatedBooks.MergeSize | backend/src/services/recommendationService.js:334-339 | the result has max(chosen, min(limit, candidates)) entries |
| RelatedBooks.MergeFromCandidates | backend/src/services/recommendationService.js:330-339 | the result takes each candidate at most as often as the candidate list holds it |
| RelatedBooks.TakeSubset | backend/src/services/recommendationService.js:327 | a slice is a sub-multiset of the candidates |
| RelatedBooks.GetRelatedBooks | backend/src/services/recommendationService.js:275-350 | no candidates or a failed query give `[]`; a failed single-attempt model call gives the first `limit` candidates; otherwise the chosen-first merge |
| HistoryStore.FindById | backend/src/routes/recommendations.js:192-196 | finds a row with the id iff one exists |
| HistoryStore.SetRejected | backend/src/routes/recommendations.js:204-211 | the UPDATE changes `is_rejected` of the rows with that id and nothing else |
| HistoryStore.SetRejectedKeepsIds | backend/src/routes/recommendations.js:204-211 | the update keeps the table's ids ordered and below the next id |
| HistoryStore.Table.constructor | backend/src/services/recommendationService.js:165-170 | an empty recommendation_history table whose serial starts at 1 |
| HistoryStore.Table.Insert | backend/src/services/recommendationService.js:165-177 | appends one row with the next serial id and returns that id |
| HistoryStore.Table.UpdateRejected | backend/src/routes/recommendations.js:204-211 | the table becomes `SetRejected` of the old rows |
| RecRoutes.RecFields | backend/src/lib/recommendations.js:2-14 | a normalised recommendation as an object with its five keys in order |
| RecRoutes.NormalizeAll | backend/src/routes/recommendations.js:40 | one normalised item per model item |
| RecRoutes.FallbackItem | backend/src/routes/recommendations.js:73-76 | a fallback item is the normalised row plus `category = doc_type` |
| RecRoutes.FallbackItems | backend/src/routes/recommendations.js:73-76 | one item per fallback row |
| RecRoutes.RetryOnlyWhenEmpty | backend/src/routes/recommendations.js:64-71 | the first fallback query's rows are kept unless they are empty and there is no keyword; the retry query has no condition and params `[limit]` |
| RecRoutes.QueryFallback | backend/src/routes/recommendations.js:50-71 | the fallback queries return the specified rows, or `None` when one throws |
| RecRoutes.GetRecommendations | backend/src/routes/recommendations.js:15-106 | the limit is clamped to [1, 50] with 10 for unparsable or zero input; a successful model answer is returned normalised with model_type `"(" + model + ")"` and total equal to its length; otherwise the fallback answers, its items are saved as "database_fallback" after the service's rows, and a failed save does not change the response |
| RecRoutes.Answer | backend/src/routes/recommendations.js:39-99 | the model's list when the service succeeded, else the fallback's answer and its save |
| RecRoutes.Fallback | backend/src/routes/recommendations.js:73-98 | a throwing fallback query gives 503 and writes nothing; otherwise the answer holds one item per row with an empty model_type and the row count, and a non-empty list is saved as "database_fallback" after the existing rows |
| RecRoutes.ListedRows | backend/src/routes/recommendations.js:122-127 | the listing never holds more rows than the table |
| RecRoutes.ListedMembers | backend/src/routes/recommendations.js:122-127 | a row is listed iff it belongs to the reader and, unless showRejected is "true", is not rejected |
| RecRoutes.ListedNewestFirst | backend/src/routes/recommendations.js:147 | listed rows come newest first |
| RecRoutes.PageSlice | backend/src/routes/recommendations.js:148-151 | a LIMIT/OFFSET page: at most `limit` rows, row i being row `offset + i` of the listing, and full when enough rows remain |
| RecRoutes.HistoryPagination | backend/src/routes/recommendations.js:114-175 | page is `max(1, parseInt(page) \|\| 1)`, limit is clamped to [1, 100] with default 10, total is the size of the listing, hasNext iff page·limit < total, hasPrev iff page > 1 |
| RecRoutes.HistoryQueryParams | backend/src/routes/recommendations.js:122-151 | params are `[reader, limit, (page−1)·limit]` with LIMIT `$2` and OFFSET `$3` |
| RecRoutes.History | backend/src/routes/recommendations.js:114-182 | GET /history: the limit lies in [1, 100] and bounds the page, the query is scoped to the reader by its first parameter, and the total counts every listed row |
| RecRoutes.HistoryPage | backend/src/routes/recommendations.js:135-162 | the page's items are the listing's rows from the offset on, at most `limit` of them |
| RecRoutes.HistoryListsOwnRows | backend/src/routes/recommendations.js:122-162 | every listed item is the item of one of the reader's own rows, and of a row not rejected unless showRejected is "true" |
| RecRoutes.Reject | backend/src/routes/recommendations.js:185-211 | a non-integer id is a 500; 404 when no record has the id and 403 when it belongs to another reader, with nothing changed in any of these cases; otherwise only `is_rejected` of that row changes and the updated row is returned |
| RecRoutes.RejectedNotListed | backend/src/routes/recommendations.js:122-211 | after rejecting an entry, no page of the default listing shows it |
| Paging.ClampedInt | backend/src/routes/recommendations.js:18-24 | `max(lo, min(hi, parseInt(x) \|\| d))`: always within [lo, hi], the default for unparsable or zero input |
| Paging.PageNumber | backend/src/routes/borrows.js:22 | `max(1, parseInt(page) \|\| 1)` |
| Paging.CeilDiv | backend/src/routes/borrows.js:110 | `Math.ceil(total / limit)`: the least count of pages covering the total |
| Paging.Paginate | backend/src/routes/borrows.js:110-121 | totalPages covers the total with no empty page; hasNext iff page·limit < total; hasPrev iff page > 1 |
| Paging.CeilBound | backend/src/routes/borrows.js:119 | `page < ceil(total/limit)` iff `page·limit < total` |
| Paging.Offset | backend/src/routes/borrows.js:24 | `(page − 1)·limit` is never negative |
| Sanitize.Sanitize | backend/src/middleware/sanitizeRequest.js:14-32 | falsy and non-object values are returned unchanged; an array maps to an array of the same length; an object maps to an object |
| Sanitize.SanitizeField | backend/src/middleware/sanitizeRequest.js:22-29 | a key keeps its name; a sensitive key maps to "[REDACTED]"; any other key maps to its sanitised value |
| Sanitize.SanitizeFields | backend/src/middleware/sanitizeRequest.js:21-31 | same keys, in the same order |
| Sanitize.SanitizeData | backend/src/middleware/sanitizeRequest.js:14-32 | the recursive key-by-key loop computes `Sanitize` |
| Sanitize.ObjectShape | backend/src/middleware/sanitizeRequest.js:21-31 | an object with distinct keys becomes the object of its sanitised fields, with the same own keys |
| Sanitize.SanitizeCleans | backend/src/middleware/sanitizeRequest.js:3-32 | after sanitising, no sensitive key at any depth holds anything but "[REDACTED]" |
| Sanitize.CleanIsFixed | backend/src/middleware/sanitizeRequest.js:14-32 | an already clean value is left unchanged |
| Sanitize.FixedPoints | backend/src/middleware/sanitizeRequest.js:14-32 | sanitising leaves a value unchanged iff it is clean and well keyed |
| Sanitize.Idempotent | backend/src/middleware/sanitizeRequest.js:14-32 | sanitising twice equals sanitising once |
| Sanitize.CaseSensitive | backend/src/middleware/sanitizeRequest.js:3-25 | "Password" is not redacted: matching is by exact key name |
| Sanitize.Request.constructor | backend/src/middleware/sanitizeRequest.js:2 | a request with a body and no sanitised body |
| Sanitize.SanitizeRequest | backend/src/middleware/sanitizeRequest.js:34-40 | the body is not modified; sanitizedBody is set only for a truthy body, to null when sanitising throws |
| OllamaManager.Reconcile | backend/src/utils/ollamaManager.js:130-175 | each remote model adds exactly one result entry with its name, an "error" entry iff its write threw |
| OllamaManager.PassOver | backend/src/utils/ollamaManager.js:130-175 | after n models the pass has n result entries |
| OllamaManager.Deactivations | backend/src/utils/ollamaManager.js:178-188 | one "deactivated" entry per pending registered row |
| OllamaManager.SyncModelsToDatabase | backend/src/utils/ollamaManager.js:118-199 | the loop over models and then over the pending map computes `Sync` |
| OllamaManager.PassEntries | backend/src/utils/ollamaManager.js:130-175 | entry i names model i and is "error" iff its write threw |
| OllamaManager.PassPending | backend/src/utils/ollamaManager.js:140-153 | a registered name stays pending iff no earlier model of that name was updated successfully |
| OllamaManager.UpdatedIffRegistered | backend/src/utils/ollamaManager.js:140-166 | for distinct names, a model is "updated" iff it was registered and its write succeeded, and "added" iff it was new and its insert succeeded |
| OllamaManager.PassPrefix | backend/src/utils/ollamaManager.js:130-175 | later models never change earlier entries |
| OllamaManager.SyncResult | backend/src/utils/ollamaManager.js:118-199 | a failed listing or registry read makes the sync throw; otherwise total is the number of remote models, entry i names model i and is "error" iff its write threw, and the entries after them are all "deactivated" and name exactly the registered names that no successful write named |
| OllamaManager.Sync | backend/src/utils/ollamaManager.js:118-199 | with the list and the registered rows read, a sync whose deactivations all succeed completes, whatever model writes fail; a completed sync reports the remote model count and has an entry for each |
| OllamaManager.DeactivatedNames | backend/src/utils/ollamaManager.js:177-188 | the appended entries are all "deactivated" and name exactly the pending keys |
| OllamaManager.PullModel | backend/src/utils/ollamaManager.js:44-102 | the request, chunk, line and end handlers compute `Pull` |
| OllamaManager.FeedLinesSettles | backend/src/utils/ollamaManager.js:61-84 | the promise is settled after a chunk's lines iff it was before or some line reports status "success" |
| OllamaManager.LineStepSettles | backend/src/utils/ollamaManager.js:62-82 | one line settles the promise iff it reports "success" |
| OllamaManager.FeedChunksSettles | backend/src/utils/ollamaManager.js:58-85 | over the whole stream, settlement happens iff some chunk holds a success line |
| OllamaManager.PullMessage | backend/src/utils/ollamaManager.js:55-98 | "模型拉取成功" iff some line reported success; otherwise "模型拉取完成" at stream end, or the interruption error; every progress report has a status and defaults completed/total to 0 |
| OllamaManager.Pull | backend/src/utils/ollamaManager.js:44-102 | a failed request rejects with no reports; without a progress listener no report is made |
| OllamaManager.NoListenerNoChunkReports | backend/src/utils/ollamaManager.js:55-78 | without a listener no chunk adds a report |
| OllamaManager.UnparsableSkipped | backend/src/utils/ollamaManager.js:80-82 | an unparsable line changes nothing |
| OllamaManager.NoListenerNoReports | backend/src/utils/ollamaManager.js:68-74 | without a progress listener no report is made |
| OllamaManager.HealthCheck | backend/src/utils/ollamaManager.js:255-287 | "unhealthy" iff the service is unavailable, with no tests; otherwise totalModels is the listing size, at most one model is tested, the configured default or else the first listed; no model is tested when there is no default and the list is empty or starts with an empty name; "healthy" iff a test passed or any model is listed, else "degraded" |
| OllamaManager.WorkingCount | backend/src/utils/ollamaManager.js:284 | the working count is positive iff some test passed |
| AiService.SseResponse.constructor | backend/src/services/aiService.js:327-385 | a response with no events written and not ended |
| AiService.SseResponse.Write | backend/src/services/aiService.js:327-338 | appends one event and marks the headers sent |
| AiService.SseResponse.End | backend/src/services/aiService.js:368 | ends the response and writes nothing |
| AiService.SendErrorResponse | backend/src/services/aiService.js:375-385 | writes nothing once headers are sent; otherwise writes the error event and ends |
| AiService.ConfigFallsBackToEmpty | backend/src/services/aiService.js:96-108 | a config that is not a parsable non-empty string, an object or an array resolves to `{}`; an object is used as is |
| AiService.ResolveConfig | backend/src/services/aiService.js:96-108 | a falsy config is `{}`, an object or array is kept, and the result is an object or array unless it is what the parser made of the config string |
| AiService.BuildRequest | backend/src/services/aiService.js:96-130 | no request exactly when the resolved config is nullish (only a config string can parse to that); otherwise the session's model, its endpoint or the default URL, and the history followed by the user's message |
| AiService.RequestOptions | backend/src/services/aiService.js:125-129 | temperature and num_predict come from the config or default to 0.7 and 2048 unless `options` sets them |
| AiService.SessionHistory | backend/src/services/aiService.js:10-30 | one entry (role, content, timestamp) per row, in order; a failed query gives `[]` |
| AiService.MessagesOrder | backend/src/services/aiService.js:110-119 | the history's (role, content) pairs in order, then the user message last |
| AiService.OptionsDefaults | backend/src/services/aiService.js:125-129 | temperature is `config.temperature \|\| 0.7` and num_predict is `config.max_tokens \|\| 2048` unless `config.options` overrides them |
| AiService.OptionsOver | backend/src/services/aiService.js:125-129 | spreading extra options last keeps the defaults only for keys the extras lack |
| AiService.DefaultOptions | backend/src/services/aiService.js:96-130 | with no model_config the request carries exactly temperature 0.7 and num_predict 2048 |
| AiService.CompleteOnce | backend/src/services/aiService.js:340-373 | completing a stream not yet completed keeps at most one "done" event and marks it completed |
| AiService.ErrorKeeps | backend/src/services/aiService.js:375-385 | an error write keeps the at-most-once invariant and the completion flag |
| AiService.LineKeeps | backend/src/services/aiService.js:146-169 | handling one line keeps the invariant and never clears the completion flag |
| AiService.LinesKeep | backend/src/services/aiService.js:146-170 | handling a chunk's lines keeps the invariant |
| AiService.StopsAtDone | backend/src/services/aiService.js:154-165 | lines after a `done` line in the same chunk are not processed |
| AiService.LinesAppend | backend/src/services/aiService.js:146-170 | processing one more line, when not stopped, applies that line's effect |
| AiService.SplitBuffer | backend/src/services/aiService.js:142-144 | lines plus the kept buffer are the split of the text; the buffer holds no newline; lines joined by newline, then a newline, then the buffer, give back the text |
| AiService.OllamaStream.constructor | backend/src/services/aiService.js:137-139 | empty buffer, empty content, not completed |
| AiService.OllamaStream.OnData | backend/src/services/aiService.js:141-171 | the new buffer and the processed lines reassemble the old buffer plus the chunk; the buffer holds no newline |
| AiService.OllamaStream.HandleLines | backend/src/services/aiService.js:146-170 | the loop over lines computes `LinesEffect` and keeps the at-most-once invariant |
| AiService.OllamaStream.HandleLine | backend/src/services/aiService.js:147-168 | one line: blank and unparsable lines are skipped, content is appended and sent, and `done` completes once and stops the chunk |
| AiService.OllamaStream.SendCompletion | backend/src/services/aiService.js:340-373 | writes the done event and ends, or writes the save error when the save fails |
| AiService.OllamaStream.OnEnd | backend/src/services/aiService.js:173-180 | completes when there is content and no completion yet; sends an error when there is neither |
| AiService.OllamaStream.OnError | backend/src/services/aiService.js:182-185 | writes the stream error |
| AiService.EmptyStreamErrors | backend/src/services/aiService.js:177-179 | an end with no content and no completion sends "未收到完整响应" unless headers were sent |
| AiService.CompletesAtMostOnce | backend/src/services/aiService.js:137-180 | over any chunk sequence, at most one "done" event is written |
| AiService.ChunksKeep | backend/src/services/aiService.js:141-171 | the invariant holds across chunks |
| AiService.OllamaStreamResponse | backend/src/services/aiService.js:90-194 | the request is built from the session, its history and its config; a request that cannot be built or sent gets one error event unless headers have gone out, "Ollama 服务未启动或无法连接" for a refused connection and "调用 Ollama 服务失败" otherwise; a sent request gives the response of the whole stream run |
| AiService.RunStream | backend/src/services/aiService.js:137-185 | feeding the chunks and the end or error computes `StreamRun` |
| AiService.CharEvents | backend/src/services/aiService.js:209-217 | one content event per character, in order |
| AiService.StreamChars | backend/src/services/aiService.js:209-221 | the mock writes one event per character and accumulates the whole text |
| AiService.MockStreamResponse | backend/src/services/aiService.js:205-229 | the mock text is streamed one character per event, then one "done" event ends the response; when the save fails nothing follows the characters and the response is not ended |
| AiService.MockText | backend/src/services/aiService.js:207 | the mock answer quotes the user's message and names the model |
| AiService.DispatchCases | backend/src/services/aiService.js:36-53 | "ollama" goes to Ollama; "openai" and any other type go to the mock |
| AiService.GenerateStreamResponse | backend/src/services/aiService.js:33-58 | an "ollama" session leaves exactly the Ollama branch's events (`OllamaEvents`), any other session the mock answer character by character then its completion; at most one "done" event |
| AiService.StreamFromOllama | backend/src/services/aiService.js:36-42 | the events are the built request's: an error event (unless headers went out) when the request cannot be built or sent, otherwise the stream's run; at most one "done" event |
| AiService.StreamFromMock | backend/src/services/aiService.js:43-53 | the mock branch writes the characters and one "done" unless the save fails |
| AiService.MockCompletesOnce | backend/src/services/aiService.js:212-224 | the mock's events hold exactly one "done" when the save succeeds |
| AiService.NoDoneInChars | backend/src/services/aiService.js:212-221 | character events are never "done" |
| BooksRoutes.SearchCondsSql | backend/src/routes/books.js:29-53 | one SQL condition per filter |
| BooksRoutes.SearchFiltersShape | backend/src/routes/books.js:29-53 | a filter is present iff its argument is truthy, in the order search, category, author, language; search and author use `%v%`, category and language exact values |
| BooksRoutes.OrderFor | backend/src/routes/books.js:65-70 | "title" sorts by title, "publication_year" by year, anything else by borrow count |
| BooksRoutes.TiesByTitle | backend/src/routes/books.js:65-69 | every order other than by title breaks ties by title ASC |
| BooksRoutes.SearchPlaceholders | backend/src/routes/books.js:29-81 | the k-th condition uses `$k`, and both the count params and the data params hold its value at position k; the LIMIT and OFFSET placeholders refer to existing params holding `parseInt(limit)` and the offset |
| BooksRoutes.SearchConditionsHead | backend/src/routes/books.js:29-41 | the first two optional filters are numbered from 1 |
| BooksRoutes.SearchConditions | backend/src/routes/books.js:29-53 | the push loop numbers the filters from 1 and params are their values |
| BooksRoutes.SearchBooks | backend/src/routes/books.js:12-97 | the route builds exactly the specified query |
| BooksRoutes.WhereOnlyWithFilters | backend/src/routes/books.js:56-62 | WHERE is emitted iff at least one filter is present |
| BooksRoutes.PopularLimit | backend/src/routes/books.js:102 | `min(parseInt(limit) \|\| 10, 100)`: never above 100 |
| BooksRoutes.PopularNoLowerBound | backend/src/routes/books.js:102 | a limit of −5 passes through: there is no lower bound |
| BooksRoutes.AllTextStarts | backend/src/routes/books.js:235-264 | the `/all` text always starts with the base SELECT |
| BooksRoutes.AllTextSnoc | backend/src/routes/books.js:240-264 | appending a filter appends its condition text |
| BooksRoutes.AddAllFilter | backend/src/routes/books.js:240-264 | one conditional push keeps text and params in step |
| BooksRoutes.AllFiltersShape | backend/src/routes/books.js:240-264 | a filter is present iff its argument is truthy, in the order search, category, author, doc_type |
| BooksRoutes.CategoryAndDocType | backend/src/routes/books.js:246-263 | category and doc_type both constrain doc_type, as `$1` and `$2` |
| BooksRoutes.AllCountMatches | backend/src/routes/books.js:265 | the count query replaces the first "SELECT *" by "SELECT COUNT(*)" |
| BooksRoutes.CountText | backend/src/routes/books.js:265 | replacing the leading "SELECT *" keeps the rest of the text |
| BooksRoutes.AllPlaceholders | backend/src/routes/books.js:240-275 | the k-th condition binds `params[k−1]`; LIMIT and OFFSET bind the pushed limit and offset |
| BooksRoutes.AllConditionsHead | backend/src/routes/books.js:240-251 | the first two optional filters extend text and params in order |
| BooksRoutes.AllConditions | backend/src/routes/books.js:240-264 | the text and params of all filters |
| BooksRoutes.ListAll | backend/src/routes/books.js:224-289 | the route builds exactly the specified queries |
| BooksRoutes.BookDetail | backend/src/routes/books.js:291-317 | no rows gives 404; total_count is 1, and available_count is 0 iff current_borrows parses above 0 |
| BorrowsRoutes.BorrowFiltersShape | backend/src/routes/borrows.js:27-66 | the reader filter comes first; optional filters follow in the order search, status, startDate, endDate, each present iff its trimmed value is non-empty (status also needs canonical values), with trimmed values |
| BorrowsRoutes.StatusFilterWhen | backend/src/routes/borrows.js:43-53 | the status filter is added iff the trimmed status canonicalises and yields compatible values |
| BorrowsRoutes.BorrowConditionsHead | backend/src/routes/borrows.js:27-53 | after the first filters, `paramIndex == params.length + 1` |
| BorrowsRoutes.BorrowConditions | backend/src/routes/borrows.js:27-66 | conditions are numbered from 1 and `paramIndex == params.length + 1` throughout |
| BorrowsRoutes.NormalizedRowFields | backend/src/routes/borrows.js:104-107 | status becomes its canonical form when that is truthy; every other field is kept |
| BorrowsRoutes.BorrowStatements | backend/src/routes/borrows.js:68-101 | the statements' WHERE conditions in order with their placeholder numbers, the count statement's params (the filter values), and the data statement's params (those values, then the limit and the offset at the next two placeholders) are `BorrowQueryFor`'s |
| BorrowsRoutes.ListBorrows | backend/src/routes/borrows.js:9-128 | the route's answer is the specified list |
| BorrowsRoutes.BorrowPlaceholders | backend/src/routes/borrows.js:27-101 | every condition binds its param; LIMIT is `$paramIndex` and OFFSET `$paramIndex+1`, bound to the limit and offset in that order |
| BorrowsRoutes.ReaderConditionFirst | backend/src/routes/borrows.js:27-29 | the first condition is always `br.reader_id = $1`, bound to the session reader |
| BorrowsRoutes.WhereStartsWithReader | backend/src/routes/borrows.js:68 | the WHERE text starts with the reader condition |
| BorrowsRoutes.BorrowPagination | backend/src/routes/borrows.js:22-121 | page ≥ 1 and equal to a valid page argument, limit in [1, 100] with default 10, total as counted, hasNext iff page·limit < total, hasPrev iff page > 1 |
| BorrowsRoutes.OwnedRows | backend/src/routes/borrows.js:149 | a record matches iff it has the id and belongs to the caller |
| BorrowsRoutes.DetailOwnerOnly | backend/src/routes/borrows.js:130-160 | 404 iff no record with the id belongs to the caller; a found record has that id and the caller's reader_id and is one of the records with its status normalised |
| BorrowsRoutes.Detail | backend/src/routes/borrows.js:130-160 | GET /:id: 404 iff none of the records is the caller's with that id; otherwise one such record, with its status normalised |
| AdminRoutes.StudentFiltersShape | backend/src/routes/admin.js:52-70 | search then department, each present iff truthy; WHERE iff some filter |
| AdminRoutes.StudentConditions | backend/src/routes/admin.js:48-64 | the push loop numbers the filters from 1 with matching params and count |
| AdminRoutes.ListStudents | backend/src/routes/admin.js:43-81 | the route builds exactly the specified query |
| AdminRoutes.StudentPlaceholders | backend/src/routes/admin.js:52-81 | condition k uses `$k`, and both the count params and the query args hold its value at position k; the LIMIT and OFFSET placeholders refer to existing args holding `parseInt(limit)` and the offset |
| AdminRoutes.NewStudentOf | backend/src/routes/admin.js:143-163 | nickname and password default to reader_id when missing |
| AdminRoutes.TallyOf | backend/src/routes/admin.js:737-747 | each row adds to exactly one of success or fail; one error per failure |
| AdminRoutes.TallyCounts | backend/src/routes/admin.js:737-747 | fail counts the failing rows, success the rest, and the errors list the failing rows |
| AdminRoutes.FailedRowsPositions | backend/src/routes/admin.js:740-743 | each error's row number is success + fail at that moment |
| AdminRoutes.ImportStatusCases | backend/src/routes/admin.js:750-755 | "success" iff no failure, "failed" iff every row failed, else "partial" |
| AdminRoutes.FirstFailure | backend/src/routes/admin.js:744-746 | the first failing row, if any |
| AdminRoutes.ImportLoop | backend/src/routes/admin.js:692-755 | the import loop computes `RunOf` |
| AdminRoutes.AbortWithoutSkip | backend/src/routes/admin.js:744-786 | with skip_errors the run completes; without it the first failing row aborts the import |
| AdminRoutes.NoFailures | backend/src/routes/admin.js:737 | no failing row means a zero fail count |
| AdminRoutes.BookOutcomes | backend/src/routes/admin.js:692-747 | one outcome per book row |
| AdminRoutes.UserOutcomes | backend/src/routes/admin.js:830-842 | one outcome per user row; a missing reader_id fails the row |
| AdminRoutes.BorrowOutcomes | backend/src/routes/admin.js:980-994 | one outcome per borrow row; a row missing borrow_id, reader_id or book_id fails |
| AdminRoutes.InferStatusOrder | backend/src/routes/admin.js:996-1005 | a recognised status is kept; otherwise return_date gives RETURNED, a past due_date OVERDUE, else BORROWED |
| AdminRoutes.BorrowInsertValues | backend/src/routes/admin.js:1006-1016 | seven values: ids first, the stored status last as `toZh(status) \|\| status` |
| AdminRoutes.ImportData | backend/src/routes/admin.js:663-1132 | the route's answer is `ImportDataFor`: 400 without a file; a 500 when `JSON.parse` of the config throws; the "not implemented" answer for another type; for a config that parsed to `null`, a 500 with the TypeError when there are rows and a normal completion when there are none; else the row loop's outcome |
| AdminRoutes.RunImport | backend/src/routes/admin.js:750-795 | the answer is `Finished` of the loop's run: an aborted run or a throwing history INSERT/COMMIT is a 500 "导入失败: …" with no history, otherwise the history row and the tally |
| AdminRoutes.FinishedReports | backend/src/routes/admin.js:750-795 | after a run, a success response carries a history row whose counts and status agree with it, and a 500 comes from a row error without skip_errors or from the history write |
| AdminRoutes.ImportConfig | backend/src/routes/admin.js:669-670 | an absent config is `{}`; a given one is whatever `JSON.parse` makes of it, or nothing when it throws |
| AdminRoutes.SkipErrors | backend/src/routes/admin.js:744 | reading `skip_errors` throws exactly on a `null` or `undefined` config; an object skips errors iff its `skip_errors` is truthy; a number or boolean skips nothing |
| AdminRoutes.ImportHistory | backend/src/routes/admin.js:663-1132 | a written history agrees with the response's counts (total = success + failed = number of rows, status "success"/"failed"/"partial" by those counts) and means the history write did not throw; an unknown type with a parsed config answers "… 类型导入暂未实现" with zero counts; the config 500 happens exactly when `JSON.parse` throws; a `null` config fails an import with rows with the TypeError and lets an empty one complete; any other 500 needs a config without skip_errors or a throwing history write |
| AdminRoutes.ImportStudents | backend/src/routes/admin.js:290-375 | a 500 "导入学生时出错: …" exactly when BEGIN or COMMIT throws; otherwise every row is tallied and the answer reports total = success + fail with the tally's errors |
| AdminRoutes.Preview | backend/src/routes/admin.js:635-639 | keeps at most the first 10 rows |
| AdminRoutes.UpdateBorrow | backend/src/routes/admin.js:480-520 | the route's answer is the specified update |
| AdminRoutes.UpdateStatement | backend/src/routes/admin.js:503-513 | the UPDATE text and params for the stored status and optional return date |
| AdminRoutes.BorrowUpdateShape | backend/src/routes/admin.js:485-513 | an invalid status gives 400 before any lookup, a missing record 404; the status param comes first, return_date second only when set, and the id is `$params.length` |
| AdminRoutes.ReturnDateNeedsLiteral | backend/src/routes/admin.js:506 | "RETURNED" does not set the return date: only the literal "returned" does |
| AiAdminRoutes.Default | backend/src/routes/ai-admin.js:44-46 | a destructuring default applies only to undefined |
| AiAdminRoutes.CreateModel | backend/src/routes/ai-admin.js:38-78 | 400 iff the name or type is not truthy; a duplicate name gives the "already exists" 400; otherwise six params: name, type, endpoint, max_tokens (4096 when undefined), temperature (0.7 when undefined) and the stringified model_config (`{}` when undefined), each taken from the body when defined |
| AiAdminRoutes.NullIsNotDefaulted | backend/src/routes/ai-admin.js:44 | an explicit null max_tokens is kept, not defaulted |
| AiAdminRoutes.HeadShape | backend/src/routes/ai-admin.js:97-108 | the first three columns contribute iff defined, in order |
| AiAdminRoutes.HeadCovers | backend/src/routes/ai-admin.js:97-108 | a column among the first three contributes iff it is defined |
| AiAdminRoutes.TailShape | backend/src/routes/ai-admin.js:109-120 | the last three columns contribute iff defined, in order |
| AiAdminRoutes.TailCovers | backend/src/routes/ai-admin.js:109-120 | a column among the last three contributes iff it is defined |
| AiAdminRoutes.PatchFieldsShape | backend/src/routes/ai-admin.js:97-120 | each defined column contributes once, in the fixed order name, endpoint, is_active, max_tokens, temperature, model_config |
| AiAdminRoutes.Assignments | backend/src/routes/ai-admin.js:126-131 | one assignment per field, then `updated_at = CURRENT_TIMESTAMP` |
| AiAdminRoutes.PatchHead | backend/src/routes/ai-admin.js:95-108 | the first pushes number their fields from 1 with `paramIndex == params.length + 1` |
| AiAdminRoutes.PatchTail | backend/src/routes/ai-admin.js:109-120 | the last pushes continue the numbering |
| AiAdminRoutes.PatchUpdates | backend/src/routes/ai-admin.js:93-120 | the k-th field is `col = $k` bound to its value, and paramIndex is one past them |
| AiAdminRoutes.PatchModel | backend/src/routes/ai-admin.js:81-149 | the route's answer is the specified patch |
| AiAdminRoutes.PatchNeedsAField | backend/src/routes/ai-admin.js:122-139 | 400 iff no field is defined, with no query; otherwise the statement runs and 404 iff no row was updated |
| AiAdminRoutes.PatchFieldsAt | backend/src/routes/ai-admin.js:97-120 | every listed field is defined and carries its own value |
| AiAdminRoutes.PatchPlaceholders | backend/src/routes/ai-admin.js:97-135 | assignment k is `col = $k+1` bound to param k; updated_at is appended; modelId is the last param at `$paramIndex` |
| AiAdminRoutes.DeleteModel | backend/src/routes/ai-admin.js:152-182 | 400 iff an active session uses the model; 404 iff none uses it and nothing was deleted |
| AiAdminRoutes.InUseRefusedFirst | backend/src/routes/ai-admin.js:162-166 | while the model is in use, the delete outcome does not matter |
| AiAdminRoutes.TestModel | backend/src/routes/ai-admin.js:185-225 | 404 iff there is no model; 400 iff it is not an ollama model; an ollama model passes iff the manager's test succeeds, and a failure carries the test's own error |
| AiAdminRoutes.OtherTypesNotTested | backend/src/routes/ai-admin.js:202-204 | a non-ollama model is refused whatever the test would do |
| AiAdminRoutes.StatsFilter | backend/src/routes/ai-admin.js:360-366 | the date filter and its two params apply only when both dates are given |
| MainLayout.SelectedKeys | frontend/src/layouts/MainLayout.jsx:212-235 | exactly one selected key |
| MainLayout.OpenKeys | frontend/src/layouts/MainLayout.jsx:238-244 | `["admin"]` iff the path starts with "/admin/", else `[]` |
| MainLayout.SelectedKeyIsPrefix | frontend/src/layouts/MainLayout.jsx:212-235 | the selected key is always a prefix of the path |
| MainLayout.SelectedKeyIsPath | frontend/src/layouts/MainLayout.jsx:215-234 | the key is the path itself iff none of the prefix rules /borrows/book, /books/, /recommendations/ and /admin/users applies |
| MainLayout.SelectedAdminIffOpen | frontend/src/layouts/MainLayout.jsx:230-244 | the selected key lies under "/admin/" iff the admin submenu is open |
| MainLayout.StoreCrumb | frontend/src/layouts/MainLayout.jsx:249-252 | a store item keeps its path as href; a "首页" title becomes the home icon, any other title is kept |
| MainLayout.DropEmpty | frontend/src/layouts/MainLayout.jsx:266 | `filter(Boolean)` keeps exactly the non-empty segments |
| MainLayout.Segments | frontend/src/layouts/MainLayout.jsx:266 | every segment is non-empty and free of "/" |
| MainLayout.SegmentTitleIs | frontend/src/layouts/MainLayout.jsx:275-295 | a segment's title is its pathMap entry if present, else the raw segment |
| MainLayout.TrailPrefixAt | frontend/src/layouts/MainLayout.jsx:268-298 | after n segments the trail holds the home item and one item per segment |
| MainLayout.GenerateBreadcrumbs | frontend/src/layouts/MainLayout.jsx:247-300 | computes `Breadcrumbs`: store items when non-empty, the fixed trail for "/borrows/book", else the derived trail |
| MainLayout.DeriveTrail | frontend/src/layouts/MainLayout.jsx:289-298 | the forEach loop computes the derived trail |
| MainLayout.CrumbPathJoin | frontend/src/layouts/MainLayout.jsx:291 | the accumulated path is "/" followed by the segments joined with "/" |
| MainLayout.DerivedTrailShape | frontend/src/layouts/MainLayout.jsx:266-298 | one home item plus one per segment; item k's title is segment k's title and its href is "/" + the first k segments, except the last, which has none |
| MainLayout.StoreTrailWins | frontend/src/layouts/MainLayout.jsx:248-253 | non-empty store breadcrumbs override derivation, item by item |
| MainLayout.DropEmptyKeeps | frontend/src/layouts/MainLayout.jsx:266 | filtering a list of non-empty segments keeps it as is |
| MainLayout.TrailEndsAtPath | frontend/src/layouts/MainLayout.jsx:266-291 | for a path of non-empty segments, the full accumulated path is the path itself |
| MainLayout.Added | frontend/src/layouts/MainLayout.jsx:111-112 | `new Set(ids).add(id)`: holds the old ids, in order, and the new one; stays duplicate-free |
| MainLayout.DedupInto | frontend/src/layouts/MainLayout.jsx:83 | adding values to a set keeps it duplicate-free and holds exactly both inputs |
| MainLayout.Restored | frontend/src/layouts/MainLayout.jsx:83 | `new Set(stored)`: duplicate-free, with exactly the stored ids |
| MainLayout.DedupDistinct | frontend/src/layouts/MainLayout.jsx:83-115 | restoring a duplicate-free list gives the list back |
| MainLayout.StorageKey | frontend/src/layouts/MainLayout.jsx:77-109 | the key starts with "read_announcements_" |
| MainLayout.Visible | frontend/src/layouts/MainLayout.jsx:446-447 | an announcement is shown iff it is present and its id is not in the read set |
| MainLayout.VisibleKeepsOrder | frontend/src/layouts/MainLayout.jsx:446-447 | filtering keeps the announcements' order |
| MainLayout.MoreReadShowsLess | frontend/src/layouts/MainLayout.jsx:105-116 | after closing one, the shown announcements are the earlier ones minus the closed one |
| MainLayout.ReadAnnouncements.constructor | frontend/src/layouts/MainLayout.jsx:61-62 | an empty read set |
| MainLayout.ReadAnnouncements.Load | frontend/src/layouts/MainLayout.jsx:73-90 | keeps the read set duplicate-free; no user leaves the set as is; otherwise the stored list restored as a set, or empty when nothing is stored; storage is untouched |
| MainLayout.ReadAnnouncements.Close | frontend/src/layouts/MainLayout.jsx:105-116 | no user changes nothing; otherwise the id is added and the set is stored under the user's key |
| MainLayout.CloseThenLoad | frontend/src/layouts/MainLayout.jsx:83-116 | reloading after a close restores the same set, and the closed announcement stays hidden |
| Text.Split | backend/src/services/aiService.js:143 | `split`: count of separators plus one parts, none holding the separator |
| Text.JoinSplit | backend/src/services/aiService.js:143-144 | joining the split parts by the separator gives the string back |
| Text.Trim | backend/src/routes/borrows.js:32 | `trim`: empty iff the string is all JavaScript whitespace; otherwise no whitespace at either end; the result is a slice of the input with only whitespace dropped before and after it |
| Text.TrimKeepsFirst | backend/src/routes/borrows.js:32 | a string that does not start with whitespace keeps its first character |
| Text.TrimUntouched | backend/src/routes/borrows.js:32 | a string with no whitespace at either end is unchanged |
| Text.IndexOf | backend/src/services/recommendationService.js:60 | the first position of a character, or −1 iff absent |
| Text.LastIndexOf | backend/src/services/recommendationService.js:61 | the last position of a character, or −1 iff absent |
| Text.Substring | backend/src/services/recommendationService.js:63 | `substring` swaps its bounds when the end comes first |
| Text.ReplaceFirst | backend/src/routes/books.js:265 | replacing a leading pattern yields the replacement followed by the rest |
| Js.SetField | backend/src/middleware/sanitizeRequest.js:25-27 | assigning a key makes it hold the value |
| Js.AssignLookup | backend/src/services/aiService.js:125-129 | after a spread, a key the extra object lacks keeps its base value, and one it holds takes the extra value |
| Js.DigitStringPositive | backend/src/services/recommendationService.js:214 | a string of decimal digits compares above zero (`Number(s) > 0`) iff one digit is not 0 |
| Js.NotPositive | backend/src/services/recommendationService.js:214 | `null`, `undefined`, a plain object and a string starting with `-` never compare above zero |
| Js.BeforeExponent | backend/src/services/recommendationService.js:214 | the mantissa of a numeric text is its prefix before the first `e`/`E` |
| Js.BeforeExponentDigits | backend/src/services/recommendationService.js:214 | a string of digits is all mantissa |

## Left out

- Network and I/O:
  - HTTP clients (axios, fetch) and AbortController timeouts;
  - SSE `res.write` formatting: events are kept as datatype values, not serialised text;
  - `setTimeout` typing delays and console logging.
- SQL is not executed. Queries are their text and parameters; every result is a
  row sequence passed in.
  - The recommendation-history table is the one store modelled with state,
    `HistoryStore.Table`.
  - ORDER BY `created_at` is represented by ids increasing with insertion.
- Collaborators outside the core are uninterpreted parameters:
  - the language-model call and `JSON.parse`;
  - `toCanonical`, `toZh` and `compatibleDbValues`: the status utility module
    is not part of this model;
  - the date comparison in the borrow import, as an "is past" predicate.
- The long system-prompt texts are a parameter: `getSystemPrompt` and the
  related-books prompt text are not reproduced.
- Floating point: temperatures are the `real` values 0.7 and 0.8, with no
  rounding modelled.
- Password hashing (SHA-256, bcrypt), CSV parsing, multer uploads and file
  clean-up: an import is modelled from the parsed rows and per-row insert
  outcomes.
- Update-existing (`ON CONFLICT DO UPDATE`) and plain inserts are not
  distinguished; only whether a row's insert throws matters.
- `BorrowsRoutes.BorrowStatements`: only the WHERE conditions, the placeholder
  numbers and the parameter lists are modelled. The SELECT list, the JOIN on
  books and `ORDER BY br.borrow_date DESC` are fixed texts the model leaves out.
- `CharEvents`: one event per Unicode scalar value. `split("")` in the source
  splits UTF-16 code units, so a character outside the Basic Multilingual
  Plane (an emoji) gives two events there and one in the model.
- `RunStream` and `PullModel`: the chunks are already strings. The source
  decodes each chunk on its own with `chunk.toString()`, which garbles a
  multi-byte UTF-8 character split across two chunks; that is not modelled.
- `JsString`: a number is written as the integer part of its value. `String(1.5)`
  is `"1.5"` in JavaScript, so a non-integral numeric message or model name
  is rendered differently, for example in `MockText`.
- `NumOrNaN`: a query value arrives as its integer value or as NaN. A value
  whose `Number()` is a fraction (`"2.5"`) cannot be expressed, so the
  arithmetic on such a page or limit is not modelled.
- `RecService.Respond`: `Number(x) > 0` is exact on the literal's digits; a
  decimal text so small that it rounds to zero (`"1e-400"`) is still
  counted above zero.
- `RecService.GetBookRecommendations`: the outer catch around
  `getReaderRecentBooks` is not modelled separately, because that function
  already catches its own errors.
- `RecRoutes.GetRecommendations`: the 500 path of the outer catch is not
  modelled. Only the fallback's own failure (503) is a reachable error in the
  model.
- `OllamaManager.PullMessage`: follows the code rather than the intent.
  - The promise settles on the FIRST line whose status is "success", so the
    message is "模型拉取成功" iff some line reported success.
  - It is not "iff the last status seen was success": a later non-success
    status cannot undo the settled promise.
- `OllamaManager.HealthCheck`: the response-time and error fields of a test are
  not modelled, only whether it worked.
- Not modelled in the AI service:
  - `sendCompletionResponse` is not awaited in the source; the model runs it
    synchronously, and a failure of its database writes is the flag
    `saveFails`;
  - the process-wide `activeConnections` map;
  - the non-streaming `generateResponse`, `generateOllamaResponse` and
    `generateMockResponse`.
- `Js.Spread`, `Js.Length` and `Js.LengthProp`: a string is a sequence of
  Unicode scalar values. `{...s}` and `s.length` count UTF-16 code units, so
  for a string holding a character outside the Basic Multilingual Plane the
  model has fewer index keys and a smaller length than JavaScript.
- `MainLayout`:
  - `pathMap[segment]` lookups do not model inherited Object.prototype keys
    such as "constructor";
  - the localStorage round trip through `JSON.stringify`/`JSON.parse` is
    modelled as storing the id list itself;
  - a malformed stored text, whose parse error is caught and leaves the set
    unchanged, is not represented;
  - Set membership is value equality on `Json`: SameValueZero and object
    identity are not modelled;
  - the fixed "/borrows/book" trail's last item has no `href` key, while a
    derived trail's last item has `href: undefined`; both are `JUndefined`
    here.
- `user.readerId || user.id || user.username` is modelled by `UserId`. React
  state and effects are reduced to the `ReadAnnouncements` class.
- Routes outside the named operations are not modelled:
  - admin CRUD for students and admins;
  - password resets;
  - the statistics SELECT texts (only the AI stats date filter is);
  - the Ollama route wrappers and `GET /models`;
  - announcements, auth and the ETL service.
- The frontend pages, stores, router and API client are not modelled.
