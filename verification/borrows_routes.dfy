/**
 * The reader's borrowing records: the paginated, filtered listing
 * (GET `/`) and the single record (GET `/:id`). The database is left
 * abstract: the listing is modelled by the statements and parameters it
 * sends, the count and the rows the database answers; the detail by the
 * table of records it reads.
 */
module BorrowsRoutes {
  import opened Js
  import opened Text
  import opened Sql
  import opened Paging

  /** The listing's conditions, in the order they can be added. */
  datatype BorrowKind = ReaderIs | TextLike | StatusIn | BorrowedFrom | BorrowedUntil

  function BorrowRank(k: BorrowKind): nat
  {
    match k
    case ReaderIs => 0
    case TextLike => 1
    case StatusIn => 2
    case BorrowedFrom => 3
    case BorrowedUntil => 4
  }

  /** The SQL of one condition, naming its parameter `$idx`. */
  function BorrowCondSql(c: Cond<BorrowKind>): string
  {
    var p := Placeholder(c.idx);
    match c.kind
    case ReaderIs => "br.reader_id = " + p
    case TextLike => "(\n        b.title ILIKE " + p + " OR\n        b.author ILIKE " + p + " OR\n        b.call_no ILIKE " + p + "\n      )"
    case StatusIn => "br.status = ANY(" + p + ")"
    case BorrowedFrom => "br.borrow_date >= " + p
    case BorrowedUntil => "br.borrow_date <= " + p
  }

  /** `whereConditions.join(" AND ")`. */
  function WhereClause(cs: seq<Cond<BorrowKind>>): string
  {
    Join(seq(|cs|, i requires 0 <= i < |cs| => BorrowCondSql(cs[i])), " AND ")
  }

  /**
   * The database values a status filter matches: none when the trimmed
   * filter is empty or does not canonicalise, else the compatible values
   * of its canonical form. `toCanonical` and `compatible` stand for the
   * status helpers, which are not part of this model.
   */
  function StatusValues(status: string, toCanonical: Json -> Json, compatible: Json -> seq<Json>): seq<Json>
  {
    var st := Trim(status);
    if st == "" then []
    else
      var canonical := toCanonical(JStr(st));
      if !Truthy(canonical) then [] else compatible(canonical)
  }

  /**
   * The listing's filters: the reader always, then search, status, start
   * and end date, each when its trimmed value is not empty (the status
   * only when it has database values to match).
   */
  function BorrowFilters(readerId: Json, search: string, status: string, startDate: string, endDate: string,
                         toCanonical: Json -> Json, compatible: Json -> seq<Json>): seq<Filter<BorrowKind>>
  {
    var values := StatusValues(status, toCanonical, compatible);
    [Filter(ReaderIs, PValue(readerId))]
    + Opt(Trim(search) != "", Filter(TextLike, PStr(Like(Trim(search)))))
    + Opt(|values| > 0, Filter(StatusIn, PValue(JArr(values))))
    + Opt(Trim(startDate) != "", Filter(BorrowedFrom, PStr(Trim(startDate))))
    + Opt(Trim(endDate) != "", Filter(BorrowedUntil, PStr(Trim(endDate))))
  }

  /**
   * The reader's condition comes first; every other filter is present
   * exactly when its trimmed value is not blank (white space alone adds
   * nothing), carries the trimmed value, and the filters keep the order
   * search, status, start date, end date.
   */
  lemma BorrowFiltersShape(readerId: Json, search: string, status: string, startDate: string, endDate: string,
                           toCanonical: Json -> Json, compatible: Json -> seq<Json>)
    ensures var fs := BorrowFilters(readerId, search, status, startDate, endDate, toCanonical, compatible);
      var values := StatusValues(status, toCanonical, compatible);
      |fs| >= 1 && fs[0] == Filter(ReaderIs, PValue(readerId))
      && (forall f :: f in fs <==>
            f == Filter(ReaderIs, PValue(readerId))
            || (Trim(search) != "" && f == Filter(TextLike, PStr(Like(Trim(search)))))
            || (|values| > 0 && f == Filter(StatusIn, PValue(JArr(values))))
            || (Trim(startDate) != "" && f == Filter(BorrowedFrom, PStr(Trim(startDate))))
            || (Trim(endDate) != "" && f == Filter(BorrowedUntil, PStr(Trim(endDate)))))
      && RankOrdered(fs, BorrowRank)
  {
    var values := StatusValues(status, toCanonical, compatible);
    var g0, g1, g2 := Filter(ReaderIs, PValue(readerId)), Filter(TextLike, PStr(Like(Trim(search)))),
                      Filter(StatusIn, PValue(JArr(values)));
    var g3, g4 := Filter(BorrowedFrom, PStr(Trim(startDate))), Filter(BorrowedUntil, PStr(Trim(endDate)));
    var p1, p2, p3, p4 := Trim(search) != "", |values| > 0, Trim(startDate) != "", Trim(endDate) != "";
    assert BorrowFilters(readerId, search, status, startDate, endDate, toCanonical, compatible)
        == [g0] + Opt(p1, g1) + Opt(p2, g2) + Opt(p3, g3) + Opt(p4, g4);
    LeadThenFour(g0, p1, g1, p2, g2, p3, g3, p4, g4, BorrowRank);
  }

  /**
   * The status filter is added exactly when the trimmed status is not
   * empty, canonicalises, and its canonical form has database values.
   */
  lemma StatusFilterWhen(status: string, toCanonical: Json -> Json, compatible: Json -> seq<Json>)
    ensures |StatusValues(status, toCanonical, compatible)| > 0 <==>
      Trim(status) != "" && Truthy(toCanonical(JStr(Trim(status))))
      && |compatible(toCanonical(JStr(Trim(status))))| > 0
  {
  }

  /** The first three blocks: the reader, search and status. */
  method BorrowConditionsHead(readerId: Json, search: string, status: string,
                              toCanonical: Json -> Json, compatible: Json -> seq<Json>)
    returns (conds: seq<Cond<BorrowKind>>, params: seq<Param>, paramIndex: nat)
    ensures var fs := [Filter(ReaderIs, PValue(readerId))]
                      + Opt(Trim(search) != "", Filter(TextLike, PStr(Like(Trim(search)))))
                      + Opt(|StatusValues(status, toCanonical, compatible)| > 0,
                            Filter(StatusIn, PValue(JArr(StatusValues(status, toCanonical, compatible)))));
      conds == Numbered(fs, 1) && params == Values(fs) && paramIndex == |params| + 1
  {
    ghost var f0 := [Filter(ReaderIs, PValue(readerId))];
    conds := [Cond(ReaderIs, 1)];
    params := [PValue(readerId)];
    paramIndex := 2;
    assert conds == Numbered(f0, 1) && params == Values(f0);
    var s := Trim(search);
    ghost var f1 := f0 + Opt(s != "", Filter(TextLike, PStr(Like(s))));
    conds, params, paramIndex := AddIndexed(s != "", Filter(TextLike, PStr(Like(s))), conds, params, paramIndex, f0);
    var values: seq<Json> := [];
    var st := Trim(status);
    if st != "" {
      var canonical := toCanonical(JStr(st));
      if Truthy(canonical) {
        values := compatible(canonical);
      }
    }
    assert values == StatusValues(status, toCanonical, compatible);
    conds, params, paramIndex := AddIndexed(|values| > 0, Filter(StatusIn, PValue(JArr(values))), conds, params, paramIndex, f1);
  }

  /** The WHERE conditions of the listing, built block by block. */
  method BorrowConditions(readerId: Json, search: string, status: string, startDate: string, endDate: string,
                          toCanonical: Json -> Json, compatible: Json -> seq<Json>)
    returns (conds: seq<Cond<BorrowKind>>, params: seq<Param>, paramIndex: nat)
    ensures var fs := BorrowFilters(readerId, search, status, startDate, endDate, toCanonical, compatible);
      conds == Numbered(fs, 1) && params == Values(fs) && paramIndex == |params| + 1
  {
    var values := StatusValues(status, toCanonical, compatible);
    ghost var f2 := [Filter(ReaderIs, PValue(readerId))]
                    + Opt(Trim(search) != "", Filter(TextLike, PStr(Like(Trim(search)))))
                    + Opt(|values| > 0, Filter(StatusIn, PValue(JArr(values))));
    var g3, g4 := Filter(BorrowedFrom, PStr(Trim(startDate))), Filter(BorrowedUntil, PStr(Trim(endDate)));
    ghost var f3 := f2 + Opt(Trim(startDate) != "", g3);
    assert BorrowFilters(readerId, search, status, startDate, endDate, toCanonical, compatible)
        == f3 + Opt(Trim(endDate) != "", g4);
    conds, params, paramIndex := BorrowConditionsHead(readerId, search, status, toCanonical, compatible);
    conds, params, paramIndex := AddIndexed(Trim(startDate) != "", g3, conds, params, paramIndex, f2);
    conds, params, paramIndex := AddIndexed(Trim(endDate) != "", g4, conds, params, paramIndex, f3);
  }

  /** The listing's statements: its conditions, WHERE text, and both parameter lists. */
  datatype BorrowQuery = BorrowQuery(conditions: seq<Cond<BorrowKind>>, where: string, countParams: seq<Param>,
                                     limitIdx: nat, offsetIdx: nat, params: seq<Param>)

  /** `{ ...row, status: toCanonical(row.status) || row.status }`. */
  function NormalizedRow(row: seq<Field>, toCanonical: Json -> Json): (r: seq<Field>)
  {
    var status := Lookup(row, "status");
    SetField(row, "status", Or(toCanonical(status), status))
  }

  /**
   * A normalised row: the status is its canonical form when it has one,
   * else the stored value; every other field is as stored.
   */
  lemma NormalizedRowFields(row: seq<Field>, toCanonical: Json -> Json, key: string)
    ensures var status := Lookup(row, "status");
      var r := NormalizedRow(row, toCanonical);
      Lookup(r, "status") == (if Truthy(toCanonical(status)) then toCanonical(status) else status)
      && (key != "status" ==> Lookup(r, key) == Lookup(row, key))
  {
    var status := Lookup(row, "status");
    SetFieldFrom(row, "status", Or(toCanonical(status), status));
    if key != "status" {
      SetFieldOther(row, "status", Or(toCanonical(status), status), key);
    }
  }

  /** The listing response: the statements sent, the normalised rows and the pagination. */
  datatype BorrowList = BorrowList(query: BorrowQuery, data: seq<seq<Field>>, pagination: Pagination)

  /** The statements of a listing for the given page and limit. */
  function BorrowQueryFor(readerId: Json, search: string, status: string, startDate: string, endDate: string,
                          toCanonical: Json -> Json, compatible: Json -> seq<Json>, page: int, limit: int): BorrowQuery
    requires page >= 1 && limit >= 1
  {
    var fs := BorrowFilters(readerId, search, status, startDate, endDate, toCanonical, compatible);
    var cs := Numbered(fs, 1);
    BorrowQuery(cs, WhereClause(cs), Values(fs), |fs| + 1, |fs| + 2,
                Values(fs) + [PInt(limit), PInt(Offset(page, limit))])
  }

  /**
   * GET `/` as a value: `total` is the count the database answers and
   * `rows` the page it returns.
   */
  function BorrowListFor(readerId: Json, pageArg: Option<int>, limitArg: Option<int>, search: string, status: string,
                         startDate: string, endDate: string, toCanonical: Json -> Json, compatible: Json -> seq<Json>,
                         total: nat, rows: seq<seq<Field>>): BorrowList
  {
    var page := PageNumber(pageArg);
    var limit := ClampedInt(limitArg, 10, 1, 100);
    BorrowList(BorrowQueryFor(readerId, search, status, startDate, endDate, toCanonical, compatible, page, limit),
               seq(|rows|, i requires 0 <= i < |rows| => NormalizedRow(rows[i], toCanonical)),
               Paginate(page, limit, total))
  }

  /** The statements of GET `/`: the WHERE conditions, then LIMIT and OFFSET after them. */
  method BorrowStatements(readerId: Json, search: string, status: string, startDate: string, endDate: string,
                          toCanonical: Json -> Json, compatible: Json -> seq<Json>, pageNum: int, limitNum: int)
    returns (q: BorrowQuery)
    requires pageNum >= 1 && limitNum >= 1
    ensures q == BorrowQueryFor(readerId, search, status, startDate, endDate, toCanonical, compatible, pageNum, limitNum)
  {
    var offset := Offset(pageNum, limitNum);
    var conds, params, paramIndex := BorrowConditions(readerId, search, status, startDate, endDate,
                                                      toCanonical, compatible);
    var whereClause := WhereClause(conds);
    var countParams := params;
    params := params + [PInt(limitNum), PInt(offset)];
    q := BorrowQuery(conds, whereClause, countParams, paramIndex, paramIndex + 1, params);
  }

  /** GET `/`. */
  method ListBorrows(readerId: Json, pageArg: Option<int>, limitArg: Option<int>, search: string, status: string,
                     startDate: string, endDate: string, toCanonical: Json -> Json, compatible: Json -> seq<Json>,
                     total: nat, rows: seq<seq<Field>>)
    returns (r: BorrowList)
    ensures r == BorrowListFor(readerId, pageArg, limitArg, search, status, startDate, endDate,
                               toCanonical, compatible, total, rows)
  {
    var pageNum := PageNumber(pageArg);
    var limitNum := ClampedInt(limitArg, 10, 1, 100);
    var q := BorrowStatements(readerId, search, status, startDate, endDate, toCanonical, compatible, pageNum, limitNum);
    var data := seq(|rows|, i requires 0 <= i < |rows| => NormalizedRow(rows[i], toCanonical));
    r := BorrowList(q, data, Paginate(pageNum, limitNum, total));
  }

  /**
   * Every placeholder names the parameter pushed for it: `$1` the
   * reader, the k-th condition's `$k` the k-th value, in the count and
   * the data statement alike, and LIMIT and OFFSET the limit and the
   * offset, pushed in that order after the filters.
   */
  lemma BorrowPlaceholders(readerId: Json, pageArg: Option<int>, limitArg: Option<int>, search: string,
                           status: string, startDate: string, endDate: string, toCanonical: Json -> Json,
                           compatible: Json -> seq<Json>, total: nat, rows: seq<seq<Field>>)
    ensures var r := BorrowListFor(readerId, pageArg, limitArg, search, status, startDate, endDate,
                                   toCanonical, compatible, total, rows);
      var fs := BorrowFilters(readerId, search, status, startDate, endDate, toCanonical, compatible);
      var q := r.query;
      q.conditions[0] == Cond(ReaderIs, 1) && q.params[0] == PValue(readerId)
      && (forall k :: 0 <= k < |q.conditions| ==>
            q.conditions[k].idx == k + 1 && Refers(k + 1, q.countParams) && Refers(k + 1, q.params)
            && q.countParams[k] == fs[k].value && q.params[k] == fs[k].value)
      && q.limitIdx == |q.countParams| + 1 && q.offsetIdx == q.limitIdx + 1
      && Refers(q.limitIdx, q.params) && q.params[q.limitIdx - 1] == PInt(r.pagination.limit)
      && Refers(q.offsetIdx, q.params)
      && q.params[q.offsetIdx - 1] == PInt(Offset(r.pagination.page, r.pagination.limit))
  {
    var fs := BorrowFilters(readerId, search, status, startDate, endDate, toCanonical, compatible);
    var page := PageNumber(pageArg);
    var limit := ClampedInt(limitArg, 10, 1, 100);
    PagedPlaceholders(fs, PInt(limit), PInt(Offset(page, limit)));
  }

  /** The WHERE text always begins with the reader's own condition. */
  lemma ReaderConditionFirst(readerId: Json, pageArg: Option<int>, limitArg: Option<int>, search: string,
                             status: string, startDate: string, endDate: string, toCanonical: Json -> Json,
                             compatible: Json -> seq<Json>, total: nat, rows: seq<seq<Field>>)
    ensures var w := BorrowListFor(readerId, pageArg, limitArg, search, status, startDate, endDate,
                                   toCanonical, compatible, total, rows).query.where;
      StartsWith(w, "br.reader_id = $1")
  {
    var fs := BorrowFilters(readerId, search, status, startDate, endDate, toCanonical, compatible);
    assert fs[0] == Filter(ReaderIs, PValue(readerId));
    WhereStartsWithReader(Numbered(fs, 1));
  }

  lemma WhereStartsWithReader(cs: seq<Cond<BorrowKind>>)
    requires |cs| >= 1 && cs[0] == Cond(ReaderIs, 1)
    ensures StartsWith(WhereClause(cs), "br.reader_id = $1")
  {
    var parts := seq(|cs|, i requires 0 <= i < |cs| => BorrowCondSql(cs[i]));
    assert parts[0] == "br.reader_id = " + Placeholder(1);
    assert Placeholder(1) == "$1";
    JoinFirst(parts, " AND ");
  }

  /**
   * The pagination: page at least 1 (default 1), limit in [1, 100]
   * (default 10), a next page exactly when rows remain after this page,
   * a previous one exactly when this is not the first page.
   */
  lemma BorrowPagination(readerId: Json, pageArg: Option<int>, limitArg: Option<int>, search: string,
                         status: string, startDate: string, endDate: string, toCanonical: Json -> Json,
                         compatible: Json -> seq<Json>, total: nat, rows: seq<seq<Field>>)
    ensures var p := BorrowListFor(readerId, pageArg, limitArg, search, status, startDate, endDate,
                                   toCanonical, compatible, total, rows).pagination;
      p.page >= 1 && (pageArg.Some? && pageArg.value >= 1 ==> p.page == pageArg.value)
      && 1 <= p.limit <= 100 && (limitArg.None? ==> p.limit == 10)
      && p.total == total
      && (p.hasNext <==> p.page * p.limit < total) && (p.hasPrev <==> p.page > 1)
  {
  }

  // ---------------------------------------------------------------------
  // GET /:id
  // ---------------------------------------------------------------------

  /** The record the detail query selects: the given id, borrowed by the caller. */
  predicate Owned(row: seq<Field>, id: Json, readerId: Json)
  {
    Lookup(row, "borrow_id") == id && Lookup(row, "reader_id") == readerId
  }

  /** The detail response: 404, or the record with its status normalised. */
  datatype BorrowDetail = NoRecord | Record(fields: seq<Field>)

  /** The rows of `records` the detail query returns, in table order. */
  function OwnedRows(records: seq<seq<Field>>, id: Json, readerId: Json): (r: seq<seq<Field>>)
    ensures forall x :: x in r <==> x in records && Owned(x, id, readerId)
  {
    if |records| == 0 then []
    else
      var rest := OwnedRows(records[1..], id, readerId);
      assert forall x :: x in records <==> x == records[0] || x in records[1..];
      if Owned(records[0], id, readerId) then [records[0]] + rest else rest
  }

  /** GET `/:id`: 404 without a matching row, else the first one, normalised. */
  function Detail(records: seq<seq<Field>>, id: Json, readerId: Json, toCanonical: Json -> Json): (r: BorrowDetail)
    ensures r.NoRecord? <==> forall x :: x in records ==> !Owned(x, id, readerId)
    ensures r.Record? ==> exists x :: x in records && Owned(x, id, readerId) && r.fields == NormalizedRow(x, toCanonical)
  {
    var rows := OwnedRows(records, id, readerId);
    if |rows| == 0 then NoRecord
    else
      assert rows[0] in rows;
      Record(NormalizedRow(rows[0], toCanonical))
  }

  /**
   * A record is returned only to the reader who borrowed it: 404 exactly
   * when no record has that id and that reader, and otherwise the record
   * returned is one of the caller's, with that id.
   */
  lemma DetailOwnerOnly(records: seq<seq<Field>>, id: Json, readerId: Json, toCanonical: Json -> Json)
    ensures var r := Detail(records, id, readerId, toCanonical);
      (r.NoRecord? <==> forall i :: 0 <= i < |records| ==> !Owned(records[i], id, readerId))
      && (r.Record? ==> Lookup(r.fields, "reader_id") == readerId && Lookup(r.fields, "borrow_id") == id
                        && exists i :: 0 <= i < |records| && r.fields == NormalizedRow(records[i], toCanonical))
  {
    var rows := OwnedRows(records, id, readerId);
    if |rows| == 0 {
      forall i | 0 <= i < |records| ensures !Owned(records[i], id, readerId) {
        assert records[i] in records;
      }
    } else {
      assert rows[0] in rows;
      NormalizedRowFields(rows[0], toCanonical, "reader_id");
      NormalizedRowFields(rows[0], toCanonical, "borrow_id");
      var i :| 0 <= i < |records| && records[i] == rows[0];
    }
  }
}
