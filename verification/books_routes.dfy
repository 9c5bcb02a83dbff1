/**
 * The book routes' query builders: the filtered, sorted and paged search,
 * the popular list's limit, the administrators' catalogue listing and the
 * availability fields of a book's detail.
 */
module BooksRoutes {
  import opened Js
  import opened Text
  import opened Sql
  import Paging

  // ---------------------------------------------------------------------
  // GET /search
  // ---------------------------------------------------------------------

  /** The search filters, in the order the handler tests them. */
  datatype SearchKind = TextMatch | CategoryIs | AuthorLike | LanguageIs

  /** The position of a kind in the fixed order. */
  function SearchRank(k: SearchKind): nat
  {
    match k
    case TextMatch => 0
    case CategoryIs => 1
    case AuthorLike => 2
    case LanguageIs => 3
  }

  function SearchCondSql(c: Cond<SearchKind>): string
  {
    var p := Placeholder(c.idx);
    match c.kind
    case TextMatch => "(b.title ILIKE " + p + " OR b.author ILIKE " + p + " OR b.publisher ILIKE " + p + ")"
    case CategoryIs => "b.doc_type = " + p
    case AuthorLike => "b.author ILIKE " + p
    case LanguageIs => "b.language = " + p
  }

  function SearchCondsSql(cs: seq<Cond<SearchKind>>): (r: seq<string>)
    ensures |r| == |cs|
  {
    if |cs| == 0 then [] else [SearchCondSql(cs[0])] + SearchCondsSql(cs[1..])
  }

  /** The WHERE clause: absent without conditions, else the conditions joined by AND. */
  function SearchWhere(cs: seq<Cond<SearchKind>>): string
  {
    if |cs| == 0 then "" else "WHERE " + Join(SearchCondsSql(cs), " AND ")
  }

  /**
   * The filters a search request asks for: every truthy one of search,
   * category, author and language, in that order; search and author match
   * substrings, category and language are bound as they are.
   */
  function SearchFilters(search: Json, category: Json, author: Json, language: Json): seq<Filter<SearchKind>>
  {
    Opt(Truthy(search), Filter(TextMatch, LikeOf(search)))
    + Opt(Truthy(category), Filter(CategoryIs, PValue(category)))
    + Opt(Truthy(author), Filter(AuthorLike, LikeOf(author)))
    + Opt(Truthy(language), Filter(LanguageIs, PValue(language)))
  }

  /**
   * Each filter is present exactly when its value is truthy, binds the
   * value as described, and the filters keep the fixed order.
   */
  lemma SearchFiltersShape(search: Json, category: Json, author: Json, language: Json)
    ensures var fs := SearchFilters(search, category, author, language);
      (forall f :: f in fs <==>
         (Truthy(search) && f == Filter(TextMatch, LikeOf(search)))
         || (Truthy(category) && f == Filter(CategoryIs, PValue(category)))
         || (Truthy(author) && f == Filter(AuthorLike, LikeOf(author)))
         || (Truthy(language) && f == Filter(LanguageIs, PValue(language))))
      && RankOrdered(fs, SearchRank)
  {
    FourFilters(Truthy(search), Filter(TextMatch, LikeOf(search)), Truthy(category), Filter(CategoryIs, PValue(category)),
                Truthy(author), Filter(AuthorLike, LikeOf(author)), Truthy(language), Filter(LanguageIs, PValue(language)),
                SearchRank);
  }

  /** `sortBy`'s ORDER BY choices. */
  datatype Order = ByPopularity | ByTitle | ByYear

  function OrderSql(o: Order): string
  {
    match o
    case ByPopularity => "ORDER BY COUNT(br.borrow_id) DESC, b.title ASC"
    case ByTitle => "ORDER BY b.title ASC"
    case ByYear => "ORDER BY b.publication_year DESC, b.title ASC"
  }

  /** `"title"` and `"publication_year"` pick their order; any other value sorts by borrow count. */
  function OrderFor(sortBy: Json): (o: Order)
    ensures o == ByTitle <==> sortBy == JStr("title")
    ensures o == ByYear <==> sortBy == JStr("publication_year")
  {
    if sortBy == JStr("title") then ByTitle
    else if sortBy == JStr("publication_year") then ByYear
    else ByPopularity
  }

  /** Every order other than by title alone breaks ties by title. */
  lemma TiesByTitle(sortBy: Json)
    ensures OrderFor(sortBy) != ByTitle ==> EndsWith(OrderSql(OrderFor(sortBy)), ", b.title ASC")
  {
  }

  /** `s` ends with `t`. */
  predicate EndsWith(s: string, t: string)
  {
    |t| <= |s| && s[|s| - |t|..] == t
  }

  /** The two statements of a search and their parameters. */
  datatype SearchQuery = SearchQuery(
    conditions: seq<Cond<SearchKind>>,
    countParams: seq<Param>,
    order: Order,
    limitIdx: nat,
    offsetIdx: nat,
    params: seq<Param>)

  const FromSql: string := "FROM books b LEFT JOIN borrow_records br ON b.book_id = br.book_id"

  function SearchCountSql(q: SearchQuery): string
  {
    "SELECT COUNT(DISTINCT b.book_id) " + FromSql + " " + SearchWhere(q.conditions)
  }

  function SearchDataSql(q: SearchQuery): string
  {
    "\n      SELECT b.*, COUNT(br.borrow_id) as borrow_count\n      " + FromSql + "\n      "
    + SearchWhere(q.conditions) + "\n      GROUP BY b.book_id\n      " + OrderSql(q.order)
    + "\n      LIMIT " + Placeholder(q.limitIdx) + " OFFSET " + Placeholder(q.offsetIdx) + "\n    "
  }

  /**
   * The search a request makes: the k-th condition uses `$k`; the count
   * runs on the filter parameters alone; the data statement adds the limit
   * and the offset after them.
   */
  function SearchQueryFor(search: Json, category: Json, author: Json, language: Json, sortBy: Json,
                          page: Option<int>, limit: Option<int>, limitInt: Option<int>): SearchQuery
  {
    var fs := SearchFilters(search, category, author, language);
    SearchQuery(Numbered(fs, 1), Values(fs), OrderFor(sortBy), |fs| + 1, |fs| + 2,
                Values(fs) + [NumOrNaN(limitInt), OffsetParam(page, limit)])
  }

  /**
   * Every placeholder of a search names an existing parameter: the k-th
   * condition's `$k` the k-th filter's value, in both statements, and
   * LIMIT and OFFSET the limit and the offset.
   */
  lemma SearchPlaceholders(search: Json, category: Json, author: Json, language: Json, sortBy: Json,
                           page: Option<int>, limit: Option<int>, limitInt: Option<int>)
    ensures var q := SearchQueryFor(search, category, author, language, sortBy, page, limit, limitInt);
      var fs := SearchFilters(search, category, author, language);
      |q.conditions| == |fs|
      && (forall k :: 0 <= k < |fs| ==>
            q.conditions[k].idx == k + 1 && Refers(k + 1, q.countParams) && Refers(k + 1, q.params)
            && q.countParams[k] == fs[k].value && q.params[k] == fs[k].value)
      && Refers(q.limitIdx, q.params) && q.params[q.limitIdx - 1] == NumOrNaN(limitInt)
      && Refers(q.offsetIdx, q.params) && q.params[q.offsetIdx - 1] == OffsetParam(page, limit)
  {
    var fs := SearchFilters(search, category, author, language);
    PagedPlaceholders(fs, NumOrNaN(limitInt), OffsetParam(page, limit));
  }

  /** The first two blocks of `/search`'s WHERE part: search, then category. */
  method SearchConditionsHead(search: Json, category: Json)
    returns (clauses: seq<Cond<SearchKind>>, params: seq<Param>, paramCount: nat)
    ensures var fs := Opt(Truthy(search), Filter(TextMatch, LikeOf(search)))
                      + Opt(Truthy(category), Filter(CategoryIs, PValue(category)));
      clauses == Numbered(fs, 1) && params == Values(fs) && paramCount == |params|
  {
    var g1, g2 := Filter(TextMatch, LikeOf(search)), Filter(CategoryIs, PValue(category));
    ghost var none: seq<Param> := [];
    ghost var f1 := Opt(Truthy(search), g1);
    assert [] + f1 == f1;
    clauses, params, paramCount := AddFilter(Truthy(search), g1, [], [], 0, none, []);
    clauses, params, paramCount := AddFilter(Truthy(category), g2, clauses, params, paramCount, none, f1);
    assert none + Values(f1 + Opt(Truthy(category), g2)) == params;
  }

  /**
   * The WHERE part of `/search`: each given filter appends its condition,
   * numbered by the running parameter count, and its value.
   */
  method SearchConditions(search: Json, category: Json, author: Json, language: Json)
    returns (clauses: seq<Cond<SearchKind>>, params: seq<Param>)
    ensures clauses == Numbered(SearchFilters(search, category, author, language), 1)
    ensures params == Values(SearchFilters(search, category, author, language))
  {
    var g3, g4 := Filter(AuthorLike, LikeOf(author)), Filter(LanguageIs, PValue(language));
    ghost var none: seq<Param> := [];
    ghost var f2 := Opt(Truthy(search), Filter(TextMatch, LikeOf(search)))
                    + Opt(Truthy(category), Filter(CategoryIs, PValue(category)));
    ghost var f3 := f2 + Opt(Truthy(author), g3);
    assert SearchFilters(search, category, author, language) == f3 + Opt(Truthy(language), g4);
    var paramCount;
    clauses, params, paramCount := SearchConditionsHead(search, category);
    assert params == none + Values(f2);
    clauses, params, paramCount := AddFilter(Truthy(author), g3, clauses, params, paramCount, none, f2);
    clauses, params, paramCount := AddFilter(Truthy(language), g4, clauses, params, paramCount, none, f3);
    assert none + Values(f3 + Opt(Truthy(language), g4)) == params;
  }

  /**
   * GET `/search`. `page` and `limit` are the query values as numbers,
   * `limitInt` is `parseInt(limit)`.
   */
  method SearchBooks(search: Json, category: Json, author: Json, language: Json, sortBy: Json,
                     page: Option<int>, limit: Option<int>, limitInt: Option<int>)
    returns (q: SearchQuery)
    ensures q == SearchQueryFor(search, category, author, language, sortBy, page, limit, limitInt)
  {
    var clauses, params := SearchConditions(search, category, author, language);
    var countParams := params;
    var limitIdx := |params| + 1;
    var offsetIdx := |params| + 2;
    params := params + [NumOrNaN(limitInt), OffsetParam(page, limit)];
    q := SearchQuery(clauses, countParams, OrderFor(sortBy), limitIdx, offsetIdx, params);
  }

  /** The WHERE clause appears exactly when some filter is given. */
  lemma WhereOnlyWithFilters(search: Json, category: Json, author: Json, language: Json)
    ensures var cs := Numbered(SearchFilters(search, category, author, language), 1);
      (SearchWhere(cs) == "" <==> !Truthy(search) && !Truthy(category) && !Truthy(author) && !Truthy(language))
  {
    var cs := Numbered(SearchFilters(search, category, author, language), 1);
    if |cs| > 0 {
      assert SearchWhere(cs)[0] == 'W';
    }
  }

  // ---------------------------------------------------------------------
  // GET /popular/list
  // ---------------------------------------------------------------------

  /** `Math.min(parseInt(limit) || 10, 100)`: capped at 100, with no lower bound. */
  function PopularLimit(parsed: Option<int>): (r: int)
    ensures r <= 100
    ensures parsed.None? || parsed.value == 0 ==> r == 10
    ensures parsed.Some? && parsed.value != 0 ==> r == if parsed.value < 100 then parsed.value else 100
  {
    var x := Paging.IntOr(parsed, 10);
    if x < 100 then x else 100
  }

  /** A negative limit goes through unchanged. */
  lemma PopularNoLowerBound()
    ensures PopularLimit(Some(-5)) == -5
  {
  }

  // ---------------------------------------------------------------------
  // GET /all
  // ---------------------------------------------------------------------

  /** The catalogue filters, in the order the handler tests them. */
  datatype AllKind = AllSearch | AllCategory | AllAuthor | AllDocType

  function AllCondSql(c: Cond<AllKind>): string
  {
    var p := Placeholder(c.idx);
    match c.kind
    case AllSearch =>
      " AND (title ILIKE " + p + " OR author ILIKE " + p + " OR publisher ILIKE " + p + " OR book_id ILIKE " + p + ")"
    case AllCategory => " AND doc_type = " + p
    case AllAuthor => " AND author ILIKE " + p
    case AllDocType => " AND doc_type = " + p
  }

  const AllBase: string := "SELECT * FROM books WHERE 1=1"

  /** The statement after the conditions are appended, before ORDER BY. */
  function AllText(cs: seq<Cond<AllKind>>): string
  {
    if |cs| == 0 then AllBase else AllText(cs[..|cs| - 1]) + AllCondSql(cs[|cs| - 1])
  }

  lemma {:induction false} AllTextStarts(cs: seq<Cond<AllKind>>)
    ensures StartsWith(AllText(cs), AllBase)
    decreases |cs|
  {
    if |cs| > 0 {
      AllTextStarts(cs[..|cs| - 1]);
      var t := AllText(cs[..|cs| - 1]);
      assert (t + AllCondSql(cs[|cs| - 1]))[..|AllBase|] == t[..|AllBase|];
    }
  }

  /** Appending one more filter appends its condition, numbered after the others. */
  lemma AllTextSnoc(fs: seq<Filter<AllKind>>, f: Filter<AllKind>)
    ensures AllText(Numbered(fs + [f], 1)) == AllText(Numbered(fs, 1)) + AllCondSql(Cond(f.kind, |fs| + 1))
  {
    NumberedSnoc(fs, f, 1);
    var cs := Numbered(fs + [f], 1);
    assert cs[..|cs| - 1] == Numbered(fs, 1);
  }

  /**
   * One `if (value) { paramCount++; query += ...; params.push(...) }`
   * block of `/all`: the condition text takes the next placeholder.
   */
  method AddAllFilter(present: bool, f: Filter<AllKind>, query: string, params: seq<Param>, count: nat,
                      ghost fs: seq<Filter<AllKind>>)
    returns (query2: string, params2: seq<Param>, count2: nat)
    requires query == AllText(Numbered(fs, 1)) && params == Values(fs) && count == |params|
    ensures query2 == AllText(Numbered(fs + Opt(present, f), 1)) && params2 == Values(fs + Opt(present, f))
    ensures count2 == |params2|
  {
    if present {
      AllTextSnoc(fs, f);
      count2 := count + 1;
      query2 := query + AllCondSql(Cond(f.kind, count2));
      params2 := params + [f.value];
    } else {
      assert fs + [] == fs;
      query2, params2, count2 := query, params, count;
    }
  }

  /** The catalogue's filters: search, category, author and doc_type, each when truthy. */
  function AllFilters(search: Json, category: Json, author: Json, docType: Json): seq<Filter<AllKind>>
  {
    Opt(Truthy(search), Filter(AllSearch, LikeOf(search)))
    + Opt(Truthy(category), Filter(AllCategory, PValue(category)))
    + Opt(Truthy(author), Filter(AllAuthor, LikeOf(author)))
    + Opt(Truthy(docType), Filter(AllDocType, PValue(docType)))
  }

  /** The filters `/all` applies are exactly the truthy ones, in the order of the parameters. */
  lemma AllFiltersShape(search: Json, category: Json, author: Json, docType: Json)
    ensures var fs := AllFilters(search, category, author, docType);
      (forall f :: f in fs <==>
         (Truthy(search) && f == Filter(AllSearch, LikeOf(search)))
         || (Truthy(category) && f == Filter(AllCategory, PValue(category)))
         || (Truthy(author) && f == Filter(AllAuthor, LikeOf(author)))
         || (Truthy(docType) && f == Filter(AllDocType, PValue(docType))))
      && RankOrdered(fs, AllRank)
  {
    FourFilters(Truthy(search), Filter(AllSearch, LikeOf(search)), Truthy(category), Filter(AllCategory, PValue(category)),
                Truthy(author), Filter(AllAuthor, LikeOf(author)), Truthy(docType), Filter(AllDocType, PValue(docType)),
                AllRank);
  }

  function AllRank(k: AllKind): nat
  {
    match k
    case AllSearch => 0
    case AllCategory => 1
    case AllAuthor => 2
    case AllDocType => 3
  }

  /**
   * Both the category and the doc_type parameter constrain `doc_type`:
   * given both, the statement tests the column twice, once against each.
   */
  lemma CategoryAndDocType(category: Json, docType: Json)
    requires Truthy(category) && Truthy(docType)
    ensures var cs := Numbered(AllFilters(JUndefined, category, JUndefined, docType), 1);
      cs == [Cond(AllCategory, 1), Cond(AllDocType, 2)]
      && AllText(cs) == AllBase + " AND doc_type = $1" + " AND doc_type = $2"
  {
    var fs := AllFilters(JUndefined, category, JUndefined, docType);
    assert fs == [Filter(AllCategory, PValue(category)), Filter(AllDocType, PValue(docType))];
    var cs := Numbered(fs, 1);
    assert cs == [Cond(AllCategory, 1), Cond(AllDocType, 2)];
    assert cs[..1] == [Cond(AllCategory, 1)] && cs[..1][..0] == [];
    assert Placeholder(1) == "$1" && Placeholder(2) == "$2";
    assert AllText(cs[..1]) == AllBase + " AND doc_type = $1";
  }

  /** The catalogue listing's statements and parameters. */
  datatype AllQuery = AllQuery(text: string, countText: string, countParams: seq<Param>, dataText: string, params: seq<Param>)

  /**
   * The listing a request makes: the conditions appended to
   * `SELECT * ... WHERE 1=1`; the count statement is that text with its
   * first `SELECT *` replaced; ORDER BY, LIMIT and OFFSET are appended
   * after it, naming the two parameters pushed last.
   */
  function AllQueryFor(search: Json, category: Json, author: Json, docType: Json,
                       page: Option<int>, limit: Option<int>, limitInt: Option<int>): AllQuery
  {
    var fs := AllFilters(search, category, author, docType);
    AllQueryOf(AllText(Numbered(fs, 1)), Values(fs), NumOrNaN(limitInt), OffsetParam(page, limit))
  }

  /** The `/all` statements around a listing text with its parameters, a limit and an offset. */
  function AllQueryOf(text: string, values: seq<Param>, limit: Param, offset: Param): AllQuery
  {
    AllQuery(text, ReplaceFirst(text, "SELECT *", "SELECT COUNT(*)"), values,
             text + " ORDER BY title LIMIT " + Placeholder(|values| + 1) + " OFFSET " + Placeholder(|values| + 2),
             values + [limit, offset])
  }

  /**
   * The count statement counts what the listing selects: it is the
   * listing's text, conditions included, with only the selected columns
   * changed; and LIMIT and OFFSET name the limit and the offset.
   */
  lemma AllCountMatches(search: Json, category: Json, author: Json, docType: Json,
                        page: Option<int>, limit: Option<int>, limitInt: Option<int>)
    ensures var q := AllQueryFor(search, category, author, docType, page, limit, limitInt);
      |q.text| >= 8 && q.countText == "SELECT COUNT(*)" + q.text[8..]
      && q.params[..|q.countParams|] == q.countParams
      && q.params[|q.countParams|] == NumOrNaN(limitInt) && q.params[|q.countParams| + 1] == OffsetParam(page, limit)
  {
    CountText(Numbered(AllFilters(search, category, author, docType), 1));
  }

  /** Replacing the leading `SELECT *` of a listing text keeps all that follows it. */
  lemma CountText(cs: seq<Cond<AllKind>>)
    ensures var text := AllText(cs);
      |text| >= 8 && ReplaceFirst(text, "SELECT *", "SELECT COUNT(*)") == "SELECT COUNT(*)" + text[8..]
  {
    var text := AllText(cs);
    AllTextStarts(cs);
    assert text[..8] == AllBase[..8] == "SELECT *";
    assert StartsWith(text, "SELECT *");
  }

  /** The placeholders of `/all` name the parameters pushed for them. */
  lemma AllPlaceholders(search: Json, category: Json, author: Json, docType: Json,
                        page: Option<int>, limit: Option<int>, limitInt: Option<int>)
    ensures var fs := AllFilters(search, category, author, docType);
      var q := AllQueryFor(search, category, author, docType, page, limit, limitInt);
      (forall k :: 0 <= k < |fs| ==>
         Numbered(fs, 1)[k].idx == k + 1 && Refers(k + 1, q.countParams) && Refers(k + 1, q.params)
         && q.params[k] == fs[k].value)
      && Refers(|fs| + 1, q.params) && Refers(|fs| + 2, q.params)
  {
    var fs := AllFilters(search, category, author, docType);
    var q := AllQueryFor(search, category, author, docType, page, limit, limitInt);
    var lim, off := NumOrNaN(limitInt), OffsetParam(page, limit);
    assert q == AllQueryOf(AllText(Numbered(fs, 1)), Values(fs), lim, off);
    assert q.countParams == Values(fs) && q.params == Values(fs) + [lim, off];
    PagedPlaceholders(fs, lim, off);
  }

  /** The first two blocks of `/all`'s WHERE part: search, then category. */
  method AllConditionsHead(search: Json, category: Json)
    returns (query: string, params: seq<Param>, paramCount: nat)
    ensures var fs := Opt(Truthy(search), Filter(AllSearch, LikeOf(search)))
                      + Opt(Truthy(category), Filter(AllCategory, PValue(category)));
      query == AllText(Numbered(fs, 1)) && params == Values(fs) && paramCount == |params|
  {
    var g1, g2 := Filter(AllSearch, LikeOf(search)), Filter(AllCategory, PValue(category));
    ghost var none: seq<Filter<AllKind>> := [];
    ghost var f1 := Opt(Truthy(search), g1);
    assert none + f1 == f1 && AllText(Numbered(none, 1)) == AllBase;
    query, params, paramCount := AddAllFilter(Truthy(search), g1, AllBase, [], 0, none);
    query, params, paramCount := AddAllFilter(Truthy(category), g2, query, params, paramCount, f1);
  }

  /** The WHERE part of `/all`, built condition by condition. */
  method AllConditions(search: Json, category: Json, author: Json, docType: Json)
    returns (query: string, params: seq<Param>)
    ensures query == AllText(Numbered(AllFilters(search, category, author, docType), 1))
    ensures params == Values(AllFilters(search, category, author, docType))
  {
    var g3, g4 := Filter(AllAuthor, LikeOf(author)), Filter(AllDocType, PValue(docType));
    ghost var f2 := Opt(Truthy(search), Filter(AllSearch, LikeOf(search)))
                    + Opt(Truthy(category), Filter(AllCategory, PValue(category)));
    ghost var f3 := f2 + Opt(Truthy(author), g3);
    assert AllFilters(search, category, author, docType) == f3 + Opt(Truthy(docType), g4);
    var paramCount;
    query, params, paramCount := AllConditionsHead(search, category);
    query, params, paramCount := AddAllFilter(Truthy(author), g3, query, params, paramCount, f2);
    query, params, paramCount := AddAllFilter(Truthy(docType), g4, query, params, paramCount, f3);
  }

  /** GET `/all`. */
  method ListAll(search: Json, category: Json, author: Json, docType: Json,
                 page: Option<int>, limit: Option<int>, limitInt: Option<int>)
    returns (q: AllQuery)
    ensures q == AllQueryFor(search, category, author, docType, page, limit, limitInt)
  {
    var query, params := AllConditions(search, category, author, docType);
    var paramCount := |params|;
    var countQuery := ReplaceFirst(query, "SELECT *", "SELECT COUNT(*)");
    var countParams := params;
    var text := query;
    query := query + " ORDER BY title LIMIT " + Placeholder(paramCount + 1) + " OFFSET " + Placeholder(paramCount + 2);
    params := params + [NumOrNaN(limitInt), OffsetParam(page, limit)];
    q := AllQuery(text, countQuery, countParams, query, params);
    assert q == AllQueryOf(text, countParams, NumOrNaN(limitInt), OffsetParam(page, limit));
  }

  // ---------------------------------------------------------------------
  // GET /:id
  // ---------------------------------------------------------------------

  /** The detail response: 404 without a row, else the row with its two count fields. */
  datatype Detail = NotFound | Book(fields: seq<Field>)

  /**
   * GET `/:id`: the first row, with `total_count` 1 and `available_count`
   * 0 while some borrow of it is open (`parseInt(current_borrows) > 0`),
   * 1 otherwise; `parseInt` is given.
   */
  function BookDetail(rows: seq<seq<Field>>, parseInt: Json -> Option<int>): (r: Detail)
    ensures |rows| == 0 <==> r.NotFound?
    ensures r.Book? ==> Lookup(r.fields, "total_count") == JNum(1.0)
    ensures r.Book? ==>
      var current := parseInt(Lookup(rows[0], "current_borrows"));
      (Lookup(r.fields, "available_count") == JNum(0.0) <==> current.Some? && current.value > 0)
      && (Lookup(r.fields, "available_count") == JNum(0.0) || Lookup(r.fields, "available_count") == JNum(1.0))
  {
    if |rows| == 0 then NotFound
    else
      var book := rows[0];
      var current := parseInt(Lookup(book, "current_borrows"));
      var withTotal := SetField(book, "total_count", JNum(1.0));
      var available := if current.Some? && current.value > 0 then 0.0 else 1.0;
      var r := SetField(withTotal, "available_count", JNum(available));
      SetFieldOther(withTotal, "available_count", JNum(available), "total_count");
      Book(r)
  }
}
