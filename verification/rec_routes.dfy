/**
 * The `/recommendations` routes: the recommendation endpoint that asks the
 * service first and falls back to a database query, the paginated history
 * listing, and the action that marks a history entry as rejected.
 *
 * The session's reader id is a parameter. The database answers to the
 * fallback queries come from a `Fetch` function (`None` when the query
 * throws); the history table is the abstract store of `HistoryStore`.
 */
module RecRoutes {
  import opened Js
  import opened Sql
  import opened Paging
  import opened RecLib
  import opened RecService
  import opened HistoryStore

  // ---------------------------------------------------------------------
  // GET /recommendations
  // ---------------------------------------------------------------------

  /** `config.recommendation`: the largest and the default number of recommendations. */
  const MaxLimit: int := 50
  const DefaultLimit: int := 10

  /** The model name under which fallback recommendations are saved. */
  const FallbackModel: string := "database_fallback"

  /** Which path answered; the response message is fixed per path. */
  datatype Answered = ByModel | ByDatabase

  /** A database query: statement text and parameters to rows, `None` when it throws. */
  type Fetch = (string, seq<Param>) -> Option<seq<seq<Field>>>

  /** The response of GET `/`; `Unavailable` is the 503 answer with an empty list. */
  datatype RecResponse =
    | RecOk(recommendations: seq<Json>, modelType: string, answered: Answered, total: nat)
    | Unavailable

  /** The fields of a normalised recommendation, in the order the normaliser builds them. */
  function RecFields(r: Recommendation): (f: seq<Field>)
    ensures |f| == 5 && f[0].key == "id" && f[1].key == "title" && f[2].key == "author"
    ensures f[3].key == "call_number" && f[4].key == "reason"
    ensures Lookup(f, "title") == r.title && Lookup(f, "author") == r.author
    ensures Lookup(f, "call_number") == r.callNumber && Lookup(f, "reason") == r.reason
  {
    var f := [Field("id", r.id), Field("title", r.title), Field("author", r.author),
              Field("call_number", r.callNumber), Field("reason", r.reason)];
    LookupAt(f, 1);
    LookupAt(f, 2);
    LookupAt(f, 3);
    LookupAt(f, 4);
    f
  }

  /** `normalizeRecommendation` applied to one item of the service's answer (always an object there). */
  function NormalizedItem(v: Json): Json
  {
    JObj(RecFields(Normalize(Spread(v))))
  }

  /** `items.map(normalizeRecommendation)`. */
  function NormalizeAll(items: seq<Json>): (r: seq<Json>)
    ensures |r| == |items|
  {
    seq(|items|, i requires 0 <= i < |items| => NormalizedItem(items[i]))
  }

  /** `{...normalizeRecommendation(book), category: book.doc_type}`. */
  function FallbackItem(book: seq<Field>): (r: Json)
    ensures r.JObj? && Lookup(r.fields, "category") == Lookup(book, "doc_type")
    ensures Lookup(r.fields, "title") == Normalize(book).title
    ensures Lookup(r.fields, "author") == Normalize(book).author
    ensures Lookup(r.fields, "reason") == Normalize(book).reason
  {
    var f := RecFields(Normalize(book));
    SetFieldOther(f, "category", Lookup(book, "doc_type"), "title");
    SetFieldOther(f, "category", Lookup(book, "doc_type"), "author");
    SetFieldOther(f, "category", Lookup(book, "doc_type"), "reason");
    JObj(SetField(f, "category", Lookup(book, "doc_type")))
  }

  function FallbackItems(books: seq<seq<Field>>): (r: seq<Json>)
    ensures |r| == |books|
  {
    seq(|books|, i requires 0 <= i < |books| => FallbackItem(books[i]))
  }

  /**
   * The rows the fallback ends with: the history-based (or keyword) query;
   * when that finds nothing and there is no keyword, the unfiltered query.
   * `None` when reading the borrow signals or either query throws.
   */
  function FallbackRows(borrows: Option<seq<BorrowSignal>>, query: string, limit: int, fetch: Fetch)
    : Option<seq<seq<Field>>>
  {
    if borrows.None? then None
    else
      var q := FallbackFor(borrows.value, query, limit);
      match fetch(QueryText(q), q.params)
      case None => None
      case Some(rows) =>
        if |rows| == 0 && query == "" then
          var q0 := FallbackFor([], "", limit);
          fetch(QueryText(q0), q0.params)
        else Some(rows)
  }

  /** The response for the fallback rows: 503 when the fallback threw. */
  function FallbackResponse(rows: Option<seq<seq<Field>>>): RecResponse
  {
    if rows.None? then Unavailable
    else RecOk(FallbackItems(rows.value), "", ByDatabase, |rows.value|)
  }

  /**
   * The unfiltered retry runs only when the first fallback query answered
   * with no rows and there is no keyword; then it is the query with no
   * condition at all, limited to the same number.
   */
  lemma RetryOnlyWhenEmpty(borrows: seq<BorrowSignal>, query: string, limit: int, fetch: Fetch)
    ensures var q := FallbackFor(borrows, query, limit);
      fetch(QueryText(q), q.params) != Some([]) || query != "" ==>
        FallbackRows(Some(borrows), query, limit, fetch) == fetch(QueryText(q), q.params)
    ensures var q0 := FallbackFor([], "", limit);
      q0.conditions == [] && q0.params == [PInt(limit)]
  {
  }

  /**
   * GET `/`: the limit is clamped to [1, 50] (unparsable or zero gives
   * 10); the service's answer is used only when it succeeded, with every
   * item normalised and the model name in parentheses; otherwise the
   * database fallback answers, 503 only when the fallback itself throws.
   * `failing` and `fallbackFailing` are the items whose history insert
   * throws in the service's save and in the fallback's save. The history
   * rows the service leaves are `serviceRows`, with next id
   * `serviceNextId`; the fallback's save adds its rows after them, and a
   * failure of that save does not change the response.
   */
  method GetRecommendations(store: Table, instructions: string, readerId: string, model: string,
                            limitArg: Option<int>, query: string,
                            recentRows: Option<seq<BorrowedBookRow>>, llm: Model, parse: Parser,
                            failing: set<nat>, borrows: Option<seq<BorrowSignal>>, fetch: Fetch,
                            fallbackFailing: set<nat>)
    returns (resp: RecResponse, ghost serviceRows: seq<HistoryRow>, ghost serviceNextId: nat)
    requires store.Valid()
    modifies store
    ensures store.Valid() && old(store.rows) <= serviceRows
    ensures var limit := ClampedInt(limitArg, DefaultLimit, 1, MaxLimit);
      var list := ModelList(instructions, RecentBooks(recentRows), model, query, limit, llm, parse);
      SavedWhole(list, failing) ==>
        var items := WithIds(Elements(list).value, |Elements(list).value|, old(store.nextId));
        resp == RecOk(NormalizeAll(items), "(" + model + ")", ByModel, |items|)
        && store.rows == serviceRows
    ensures var limit := ClampedInt(limitArg, DefaultLimit, 1, MaxLimit);
      var list := ModelList(instructions, RecentBooks(recentRows), model, query, limit, llm, parse);
      !SavedWhole(list, failing) ==>
        var rows := FallbackRows(borrows, query, limit, fetch);
        resp == FallbackResponse(rows)
        && (rows.Some? && |rows.value| > 0 ==>
              store.rows == serviceRows + SavedRows(readerId, FallbackModel, FallbackItems(rows.value),
                                                    fallbackFailing, serviceNextId))
        && (rows.None? || |rows.value| == 0 ==> store.rows == serviceRows)
  {
    var limit := ClampedInt(limitArg, DefaultLimit, 1, MaxLimit);
    ghost var list := ModelList(instructions, RecentBooks(recentRows), model, query, limit, llm, parse);
    var result := GetBookRecommendations(store, instructions, readerId, model, query, limit,
                                         recentRows, llm, parse, failing);
    serviceRows := store.rows;
    serviceNextId := store.nextId;
    resp := Answer(store, readerId, model, query, limit, result, borrows, fetch, fallbackFailing,
                   list, failing, old(store.nextId));
  }

  /**
   * What GET `/` answers once the service has run: the service's list
   * when it succeeded, else the database fallback's. `list` is the list
   * the service's model path produced and `firstId` the first history id
   * it used.
   */
  method Answer(store: Table, readerId: string, model: string, query: string, limit: int, result: ServiceResponse,
                borrows: Option<seq<BorrowSignal>>, fetch: Fetch, fallbackFailing: set<nat>,
                ghost list: Json, ghost failing: set<nat>, ghost firstId: nat)
    returns (resp: RecResponse)
    requires store.Valid()
    requires Truthy(result.success) <==> SavedWhole(list, failing)
    requires Truthy(result.success) ==>
      result.recommendations == JArr(WithIds(Elements(list).value, |Elements(list).value|, firstId))
    modifies store
    ensures store.Valid()
    ensures SavedWhole(list, failing) ==>
      var items := WithIds(Elements(list).value, |Elements(list).value|, firstId);
      resp == RecOk(NormalizeAll(items), "(" + model + ")", ByModel, |items|) && store.rows == old(store.rows)
    ensures !SavedWhole(list, failing) ==>
      var rows := FallbackRows(borrows, query, limit, fetch);
      resp == FallbackResponse(rows)
      && (rows.Some? && |rows.value| > 0 ==>
            store.rows == old(store.rows) + SavedRows(readerId, FallbackModel, FallbackItems(rows.value),
                                                      fallbackFailing, old(store.nextId)))
      && (rows.None? || |rows.value| == 0 ==> store.rows == old(store.rows))
  {
    if Truthy(result.success) && Truthy(result.recommendations) && result.recommendations.JArr? {
      var items := result.recommendations.items;
      // `result.model_used || model`: the service reports the model it was given
      return RecOk(NormalizeAll(items), "(" + model + ")", ByModel, |items|);
    }
    var rows := QueryFallback(borrows, query, limit, fetch);
    resp := Fallback(store, readerId, rows, fallbackFailing);
  }

  /** The fallback's answer for the rows its queries found, with the save of its recommendations. */
  method Fallback(store: Table, readerId: string, rows: Option<seq<seq<Field>>>, fallbackFailing: set<nat>)
    returns (resp: RecResponse)
    requires store.Valid()
    modifies store
    ensures store.Valid()
    ensures resp == FallbackResponse(rows)
    ensures rows.Some? && |rows.value| > 0 ==>
      store.rows == old(store.rows) + SavedRows(readerId, FallbackModel, FallbackItems(rows.value),
                                                fallbackFailing, old(store.nextId))
    ensures rows.None? || |rows.value| == 0 ==> store.rows == old(store.rows)
  {
    if rows.None? {
      return Unavailable;
    }
    var recommendations := FallbackItems(rows.value);
    if |recommendations| > 0 {
      assert Elements(JArr(recommendations)) == Some(recommendations);
      var saved := SaveRecommendationHistory(store, readerId, FallbackModel, JArr(recommendations), fallbackFailing);
    }
    resp := RecOk(recommendations, "", ByDatabase, |recommendations|);
  }

  /** The fallback queries: the history query, then the unfiltered retry when it found nothing. */
  method QueryFallback(borrows: Option<seq<BorrowSignal>>, query: string, limit: int, fetch: Fetch)
    returns (rows: Option<seq<seq<Field>>>)
    ensures rows == FallbackRows(borrows, query, limit, fetch)
  {
    if borrows.None? {
      return None;
    }
    var sql, q := BuildFallbackQuery(borrows.value, query, limit);
    rows := fetch(sql, q.params);
    if rows.Some? && |rows.value| == 0 && query == "" {
      var sql0, q0 := BuildFallbackQuery([], "", limit);
      rows := fetch(sql0, q0.params);
    }
  }

  // ---------------------------------------------------------------------
  // GET /recommendations/history
  // ---------------------------------------------------------------------

  const RejectedFilter: string := " AND (is_rejected IS FALSE OR is_rejected IS NULL)"

  /** The WHERE clause of both history queries; `$1` is the reader id. */
  function HistoryWhere(showRejected: string): string
  {
    "reader_id = $1" + (if showRejected != "true" then RejectedFilter else "")
  }

  /** The rows the WHERE clause selects: the reader's own, without the rejected ones unless asked for. */
  predicate Listed(row: HistoryRow, readerId: string, showRejected: string)
  {
    row.readerId == readerId && (showRejected == "true" || row.rejected != Some(true))
  }

  /** The selected rows, newest first (`ORDER BY created_at DESC`, insertion order reversed). */
  function ListedRows(rows: seq<HistoryRow>, readerId: string, showRejected: string): (r: seq<HistoryRow>)
    ensures |r| <= |rows|
  {
    if |rows| == 0 then []
    else
      var last := rows[|rows| - 1];
      var rest := ListedRows(rows[..|rows| - 1], readerId, showRejected);
      if Listed(last, readerId, showRejected) then [last] + rest else rest
  }

  /** The listing holds exactly the rows the WHERE clause selects. */
  lemma {:induction false} ListedMembers(rows: seq<HistoryRow>, readerId: string, showRejected: string)
    ensures var r := ListedRows(rows, readerId, showRejected);
      forall x :: x in r <==> x in rows && Listed(x, readerId, showRejected)
  {
    if |rows| > 0 {
      var init := rows[..|rows| - 1];
      ListedMembers(init, readerId, showRejected);
      assert rows == init + [rows[|rows| - 1]];
    }
  }

  /** With ids in insertion order, the listing has strictly decreasing ids: newest first. */
  lemma {:induction false} ListedNewestFirst(rows: seq<HistoryRow>, nextId: nat, readerId: string, showRejected: string)
    requires IdsOrdered(rows, nextId)
    ensures var r := ListedRows(rows, readerId, showRejected);
      forall i, j :: 0 <= i < j < |r| ==> r[i].id > r[j].id
  {
    if |rows| > 0 {
      var init := rows[..|rows| - 1];
      var last := rows[|rows| - 1];
      assert IdsOrdered(init, last.id);
      ListedNewestFirst(init, last.id, readerId, showRejected);
      ListedMembers(init, readerId, showRejected);
      var rest := ListedRows(init, readerId, showRejected);
      assert forall j :: 0 <= j < |rest| ==> rest[j] in init;
    }
  }

  /** One entry of the history response; `x || ""` for the text columns. */
  datatype HistoryItem = HistoryItem(
    id: nat, title: Json, author: Json, callNumber: Json, reason: Json,
    modelUsed: string, rejected: Option<bool>)

  function ItemOf(row: HistoryRow): HistoryItem
  {
    HistoryItem(row.id, Or(row.title, JStr("")), Or(row.author, JStr("")), Or(row.callNumber, JStr("")),
                Or(row.reason, JStr("")), row.modelUsed, row.rejected)
  }

  /** The page query: its WHERE clause, LIMIT and OFFSET placeholders and parameters. */
  datatype PageQuery = PageQuery(where: string, limitIdx: nat, offsetIdx: nat, params: seq<Param>)

  datatype HistoryResponse = HistoryResponse(query: PageQuery, items: seq<HistoryItem>, pagination: Pagination)

  /** `LIMIT limit OFFSET offset` over a list. */
  function PageSlice<T>(all: seq<T>, offset: nat, limit: nat): (r: seq<T>)
    ensures |r| <= limit && (|r| > 0 ==> offset + |r| <= |all|)
    ensures forall i :: 0 <= i < |r| ==> r[i] == all[offset + i]
    ensures offset + limit <= |all| ==> |r| == limit
  {
    if offset >= |all| then []
    else if offset + limit <= |all| then all[offset..offset + limit]
    else all[offset..]
  }

  /** GET `/history`: the page query, the entries of the requested page and the pagination. */
  function History(rows: seq<HistoryRow>, readerId: string, pageArg: Option<int>, limitArg: Option<int>,
                   showRejected: string): (r: HistoryResponse)
    ensures 1 <= r.pagination.limit <= 100 && |r.items| <= r.pagination.limit
    ensures |r.query.params| == 3 && r.query.params[0] == PStr(readerId)
    ensures r.pagination.total == |ListedRows(rows, readerId, showRejected)|
  {
    var page := PageNumber(pageArg);
    var limit := ClampedInt(limitArg, 10, 1, 100);
    var offset := Offset(page, limit);
    var all := ListedRows(rows, readerId, showRejected);
    var pageRows := PageSlice(all, offset, limit);
    var params := [PStr(readerId), PInt(limit), PInt(offset)];
    var items := seq(|pageRows|, i requires 0 <= i < |pageRows| => ItemOf(pageRows[i]));
    HistoryResponse(PageQuery(HistoryWhere(showRejected), |params| - 1, |params|, params), items,
                    Paginate(page, limit, |all|))
  }

  /**
   * The history pagination: page at least 1 (default 1), limit in
   * [1, 100] (default 10), the total counts every listed row, a next page
   * exists exactly when rows remain after this page, a previous one
   * exactly when the page is not the first.
   */
  lemma HistoryPagination(rows: seq<HistoryRow>, readerId: string, pageArg: Option<int>, limitArg: Option<int>,
                          showRejected: string)
    ensures var p := History(rows, readerId, pageArg, limitArg, showRejected).pagination;
      p.page == PageNumber(pageArg) && p.limit == ClampedInt(limitArg, 10, 1, 100)
      && p.total == |ListedRows(rows, readerId, showRejected)|
      && (p.hasNext <==> p.page * p.limit < p.total) && (p.hasPrev <==> p.page > 1)
  {
  }

  /** The LIMIT and OFFSET placeholders `$2` and `$3` name the limit and the offset `(page - 1) * limit`. */
  lemma HistoryQueryParams(rows: seq<HistoryRow>, readerId: string, pageArg: Option<int>, limitArg: Option<int>,
                           showRejected: string)
    ensures var r := History(rows, readerId, pageArg, limitArg, showRejected);
      var q := r.query;
      q.where == HistoryWhere(showRejected)
      && q.params == [PStr(readerId), PInt(r.pagination.limit), PInt(Offset(r.pagination.page, r.pagination.limit))]
      && q.limitIdx == 2 && q.offsetIdx == 3
  {
  }

  /**
   * The page holds at most `limit` entries: the listed rows from the
   * offset on, in listing order, and exactly `limit` of them when the
   * listing reaches that far.
   */
  lemma HistoryPage(rows: seq<HistoryRow>, readerId: string, pageArg: Option<int>, limitArg: Option<int>,
                    showRejected: string)
    ensures var r := History(rows, readerId, pageArg, limitArg, showRejected);
      var all := ListedRows(rows, readerId, showRejected);
      var limit := ClampedInt(limitArg, 10, 1, 100);
      var off := Offset(PageNumber(pageArg), limit);
      |r.items| <= limit
      && (|r.items| > 0 ==> off + |r.items| <= |all|)
      && (off + limit <= |all| ==> |r.items| == limit)
      && forall i :: 0 <= i < |r.items| ==> r.items[i] == ItemOf(all[off + i])
  {
  }

  /** Every listed entry belongs to the reader, and none is rejected unless `showRejected` is `"true"`. */
  lemma HistoryListsOwnRows(rows: seq<HistoryRow>, readerId: string, pageArg: Option<int>,
                            limitArg: Option<int>, showRejected: string)
    ensures var r := History(rows, readerId, pageArg, limitArg, showRejected);
      forall i :: 0 <= i < |r.items| ==>
        exists k :: (0 <= k < |rows| && rows[k].readerId == readerId && ItemOf(rows[k]) == r.items[i]
                     && (showRejected != "true" ==> rows[k].rejected != Some(true)))
  {
    var r := History(rows, readerId, pageArg, limitArg, showRejected);
    var all := ListedRows(rows, readerId, showRejected);
    var off := Offset(PageNumber(pageArg), ClampedInt(limitArg, 10, 1, 100));
    HistoryPage(rows, readerId, pageArg, limitArg, showRejected);
    ListedMembers(rows, readerId, showRejected);
    forall i | 0 <= i < |r.items|
      ensures exists k :: (0 <= k < |rows| && rows[k].readerId == readerId && ItemOf(rows[k]) == r.items[i]
                           && (showRejected != "true" ==> rows[k].rejected != Some(true)))
    {
      var x := all[off + i];
      assert x in all;
      var k :| 0 <= k < |rows| && rows[k] == x;
      assert ItemOf(rows[k]) == r.items[i];
    }
  }

  // ---------------------------------------------------------------------
  // PUT /recommendations/history/:id
  // ---------------------------------------------------------------------

  /** The answers of the reject action; `ServerError` is the 500 for an id that is not an integer. */
  datatype RejectResponse = Updated(record: HistoryRow) | NotFound | Forbidden | ServerError

  /**
   * PUT `/history/:id`: 404 when no row has the id, 403 when the row
   * belongs to another reader, and nothing changes in either case;
   * otherwise only `is_rejected` of that row is set and the updated row is
   * returned. `id` is `None` when the path segment is not an integer.
   */
  method Reject(store: Table, readerId: string, id: Option<nat>, isRejected: Option<bool>)
    returns (resp: RejectResponse)
    requires store.Valid()
    modifies store
    ensures store.Valid() && store.nextId == old(store.nextId)
    ensures id.None? ==> resp == ServerError && store.rows == old(store.rows)
    ensures id.Some? && FindById(old(store.rows), id.value).None? ==>
      resp == NotFound && store.rows == old(store.rows)
    ensures id.Some? && FindById(old(store.rows), id.value).Some? ==>
      FindById(old(store.rows), id.value).value.readerId != readerId ==>
      resp == Forbidden && store.rows == old(store.rows)
    ensures id.Some? && FindById(old(store.rows), id.value).Some? ==>
      FindById(old(store.rows), id.value).value.readerId == readerId ==>
      store.rows == SetRejected(old(store.rows), id.value, isRejected)
      && resp == Updated(FindById(old(store.rows), id.value).value.(rejected := isRejected))
  {
    if id.None? {
      return ServerError;
    }
    var found := FindById(store.rows, id.value);
    if found.None? {
      return NotFound;
    }
    if found.value.readerId != readerId {
      return Forbidden;
    }
    store.UpdateRejected(id.value, isRejected);
    resp := Updated(found.value.(rejected := isRejected));
  }

  /**
   * Rejecting an entry hides it from its owner's default history listing:
   * after the update no page of the listing holds the entry's id.
   */
  lemma RejectedNotListed(rows: seq<HistoryRow>, id: nat, readerId: string,
                          pageArg: Option<int>, limitArg: Option<int>, showRejected: string)
    requires showRejected != "true"
    ensures var r := History(SetRejected(rows, id, Some(true)), readerId, pageArg, limitArg, showRejected);
      forall i :: 0 <= i < |r.items| ==> r.items[i].id != id
  {
    var rows' := SetRejected(rows, id, Some(true));
    var r := History(rows', readerId, pageArg, limitArg, showRejected);
    HistoryListsOwnRows(rows', readerId, pageArg, limitArg, showRejected);
    forall i | 0 <= i < |r.items|
      ensures r.items[i].id != id
    {
      var k :| 0 <= k < |rows'| && rows'[k].readerId == readerId && ItemOf(rows'[k]) == r.items[i]
        && rows'[k].rejected != Some(true);
      assert rows[k].id == rows'[k].id;
    }
  }
}
