/**
 * The recommendation library: the normaliser that gives every
 * recommendation record one canonical shape, and the builder of the
 * database fallback query used when the language model cannot answer.
 */
module RecLib {
  import opened Js
  import opened Sql
  import Text

  // ---------------------------------------------------------------------
  // Normaliser
  // ---------------------------------------------------------------------

  /** Alias keys per canonical field, highest priority first. */
  const TitleKeys: seq<string> := ["title", "book_title", "name", "Title"]
  const AuthorKeys: seq<string> := ["author", "book_author", "writer", "Author"]
  const CallNumberKeys: seq<string> := ["call_number", "call_no", "callNumber", "callNum", "call_num"]
  const ReasonKeys: seq<string> := ["reason", "explanation", "rationale"]

  /** A normalised recommendation. `id` is not defaulted and may be falsy. */
  datatype Recommendation = Recommendation(id: Json, title: Json, author: Json, callNumber: Json, reason: Json)

  /** `keys[i]` holds a truthy value and no alias before it does. */
  predicate FirstTruthyAt(rec: seq<Field>, keys: seq<string>, i: int)
  {
    0 <= i < |keys| && Truthy(Lookup(rec, keys[i]))
    && forall j :: 0 <= j < i ==> !Truthy(Lookup(rec, keys[j]))
  }

  /** No alias key holds a truthy value. */
  predicate NoneTruthy(rec: seq<Field>, keys: seq<string>)
  {
    forall j :: 0 <= j < |keys| ==> !Truthy(Lookup(rec, keys[j]))
  }

  /**
   * `rec[keys[0]] || rec[keys[1]] || ... || ""`: the value of the first
   * alias that is truthy (an empty string counts as absent), else `""`.
   */
  function FirstTruthy(rec: seq<Field>, keys: seq<string>): (r: Json)
    ensures forall i :: FirstTruthyAt(rec, keys, i) ==> r == Lookup(rec, keys[i])
    ensures NoneTruthy(rec, keys) ==> r == JStr("")
    ensures Truthy(r) || r == JStr("")
    decreases |keys|
  {
    if |keys| == 0 then JStr("")
    else
      var rest := FirstTruthy(rec, keys[1..]);
      assert forall i :: 1 <= i && FirstTruthyAt(rec, keys, i) ==> FirstTruthyAt(rec, keys[1..], i - 1);
      Or(Lookup(rec, keys[0]), rest)
  }

  /**
   * `normalizeRecommendation`: each canonical field takes the first truthy
   * alias in priority order or `""`; `id` is `rec.id || rec.recommendation_id`.
   */
  function Normalize(rec: seq<Field>): (r: Recommendation)
    ensures Truthy(Lookup(rec, "id")) ==> r.id == Lookup(rec, "id")
    ensures !Truthy(Lookup(rec, "id")) ==> r.id == Lookup(rec, "recommendation_id")
    ensures forall i :: FirstTruthyAt(rec, TitleKeys, i) ==> r.title == Lookup(rec, TitleKeys[i])
    ensures forall i :: FirstTruthyAt(rec, AuthorKeys, i) ==> r.author == Lookup(rec, AuthorKeys[i])
    ensures forall i :: FirstTruthyAt(rec, CallNumberKeys, i) ==> r.callNumber == Lookup(rec, CallNumberKeys[i])
    ensures forall i :: FirstTruthyAt(rec, ReasonKeys, i) ==> r.reason == Lookup(rec, ReasonKeys[i])
    ensures NoneTruthy(rec, TitleKeys) ==> r.title == JStr("")
    ensures NoneTruthy(rec, AuthorKeys) ==> r.author == JStr("")
    ensures NoneTruthy(rec, CallNumberKeys) ==> r.callNumber == JStr("")
    ensures NoneTruthy(rec, ReasonKeys) ==> r.reason == JStr("")
  {
    Recommendation(
      Or(Lookup(rec, "id"), Lookup(rec, "recommendation_id")),
      FirstTruthy(rec, TitleKeys),
      FirstTruthy(rec, AuthorKeys),
      FirstTruthy(rec, CallNumberKeys),
      FirstTruthy(rec, ReasonKeys))
  }

  /** The four text fields are never `undefined` or `null`: each is truthy or `""`. */
  lemma NormalizeTotal(rec: seq<Field>)
    ensures var r := Normalize(rec);
      && (Truthy(r.title) || r.title == JStr(""))
      && (Truthy(r.author) || r.author == JStr(""))
      && (Truthy(r.callNumber) || r.callNumber == JStr(""))
      && (Truthy(r.reason) || r.reason == JStr(""))
  {
  }

  /** `{call_no: "A1", callNumber: "B2"}` normalises to call number `"A1"`. */
  lemma CallNumberPriority()
    ensures Normalize([Field("callNumber", JStr("B2")), Field("call_no", JStr("A1"))]).callNumber == JStr("A1")
  {
    var rec := [Field("callNumber", JStr("B2")), Field("call_no", JStr("A1"))];
    assert Lookup(rec, "call_number") == JUndefined;
    assert FirstTruthyAt(rec, CallNumberKeys, 1);
  }

  /** An empty title alias counts as absent: `{title: "", name: "N"}` gives `"N"`. */
  lemma EmptyAliasSkipped()
    ensures Normalize([Field("title", JStr("")), Field("name", JStr("N"))]).title == JStr("N")
  {
    var rec := [Field("title", JStr("")), Field("name", JStr("N"))];
    assert Lookup(rec, "book_title") == JUndefined;
    assert FirstTruthyAt(rec, TitleKeys, 2);
  }

  // ---------------------------------------------------------------------
  // Fallback query builder
  // ---------------------------------------------------------------------

  /** One row of `SELECT DISTINCT b.doc_type, b.author` over the reader's borrows. */
  datatype BorrowSignal = BorrowSignal(docType: Json, author: Json)

  /** The WHERE conditions the builder can emit, each naming its placeholder. */
  datatype Condition =
    | KeywordMatch(idx: nat)   // title, author or doc_type ILIKE $idx
    | DocTypeIn(idx: nat)      // doc_type = ANY($idx)

  /** The fallback query: its conditions, the LIMIT placeholder and the parameters. */
  datatype FallbackQuery = FallbackQuery(conditions: seq<Condition>, limitIdx: nat, params: seq<Param>)

  const SelectSql: string :=
    "\n  SELECT b.title, b.author, b.call_no, b.doc_type,\n  'Based on your reading history' as reason\n  FROM books b\n  "
  const OrderSql: string := " ORDER BY b.publication_year DESC LIMIT "

  function ConditionSql(c: Condition): string
  {
    match c
    case KeywordMatch(k) =>
      "(b.title ILIKE " + Placeholder(k) + " OR b.author ILIKE " + Placeholder(k)
      + " OR b.doc_type ILIKE " + Placeholder(k) + ")"
    case DocTypeIn(k) => "(b.doc_type = ANY(" + Placeholder(k) + "))"
  }

  function ConditionsSql(cs: seq<Condition>): seq<string>
  {
    if |cs| == 0 then [] else [ConditionSql(cs[0])] + ConditionsSql(cs[1..])
  }

  /** The statement text of a fallback query. */
  function QueryText(q: FallbackQuery): string
  {
    SelectSql
    + (if |q.conditions| > 0 then " WHERE " + Text.Join(ConditionsSql(q.conditions), " AND ") else "")
    + OrderSql + Placeholder(q.limitIdx)
  }

  /** The doc_type column of the signal rows, in row order. */
  function DocTypeColumn(rows: seq<BorrowSignal>): (r: seq<Json>)
    ensures |r| == |rows|
    ensures forall i :: 0 <= i < |rows| ==> r[i] == rows[i].docType
  {
    seq(|rows|, i requires 0 <= i < |rows| => rows[i].docType)
  }

  /**
   * `[...new Set(xs.filter(Boolean))]`: the truthy values of `xs` without
   * repetition, each at the place of its first occurrence.
   */
  function DistinctTruthy(xs: seq<Json>): (r: seq<Json>)
    ensures forall v :: v in r <==> v in xs && Truthy(v)
    ensures forall i, j :: 0 <= i < j < |r| ==> r[i] != r[j]
    decreases |xs|
  {
    if |xs| == 0 then []
    else
      var r := DistinctTruthy(xs[..|xs| - 1]);
      var v := xs[|xs| - 1];
      assert xs == xs[..|xs| - 1] + [v];
      if Truthy(v) && v !in r then r + [v] else r
  }

  /** Index of the first occurrence of `v` in `xs`. */
  function FirstIndex(xs: seq<Json>, v: Json): (k: nat)
    requires v in xs
    ensures k < |xs| && xs[k] == v && v !in xs[..k]
  {
    if xs[0] == v then 0 else 1 + FirstIndex(xs[1..], v)
  }

  /** Every element of `r` occurs in `xs`, and `r` lists them in the order of their first occurrences. */
  predicate OrderedByFirst(xs: seq<Json>, r: seq<Json>)
  {
    (forall u :: u in r ==> u in xs)
    && forall i, j :: 0 <= i < j < |r| ==> FirstIndex(xs, r[i]) < FirstIndex(xs, r[j])
  }

  /** The distinct doc types keep the order of their first occurrences. */
  lemma {:induction false} DistinctTruthyOrder(xs: seq<Json>)
    ensures OrderedByFirst(xs, DistinctTruthy(xs))
    decreases |xs|
  {
    if |xs| > 0 {
      var init := xs[..|xs| - 1];
      DistinctTruthyOrder(init);
      assert xs == init + [xs[|xs| - 1]];
      DistinctTruthyStep(init, xs[|xs| - 1]);
    }
  }

  /** One more value keeps the order of the distinct list. */
  lemma DistinctTruthyStep(init: seq<Json>, v: Json)
    requires OrderedByFirst(init, DistinctTruthy(init))
    ensures OrderedByFirst(init + [v], DistinctTruthy(init + [v]))
  {
    var xs := init + [v];
    var r0 := DistinctTruthy(init);
    assert xs[..|xs| - 1] == init;
    if Truthy(v) && v !in r0 {
      assert v !in init;
      assert DistinctTruthy(xs) == r0 + [v];
      AppendFirstOrder(init, v, r0);
    } else {
      assert DistinctTruthy(xs) == r0;
      AppendKeepsOrder(init, v, r0);
    }
  }

  lemma AppendKeepsOrder(init: seq<Json>, v: Json, r0: seq<Json>)
    requires OrderedByFirst(init, r0)
    ensures OrderedByFirst(init + [v], r0)
  {
    forall i, j | 0 <= i < j < |r0|
      ensures FirstIndex(init + [v], r0[i]) < FirstIndex(init + [v], r0[j])
    {
      FirstIndexPrefix(init, v, r0[i]);
      FirstIndexPrefix(init, v, r0[j]);
    }
  }

  lemma AppendFirstOrder(init: seq<Json>, v: Json, r0: seq<Json>)
    requires v !in init
    requires OrderedByFirst(init, r0)
    ensures OrderedByFirst(init + [v], r0 + [v])
  {
    var xs := init + [v];
    var r := r0 + [v];
    AppendKeepsOrder(init, v, r0);
    FirstIndexUnique(xs, v, |init|);
    forall i | 0 <= i < |r0|
      ensures FirstIndex(xs, r[i]) < FirstIndex(xs, v)
    {
      assert r[i] == r0[i];
      FirstIndexPrefix(init, v, r0[i]);
    }
  }

  lemma FirstIndexPrefix(init: seq<Json>, v: Json, u: Json)
    requires u in init
    ensures FirstIndex(init + [v], u) == FirstIndex(init, u)
  {
    var k := FirstIndex(init, u);
    var xs := init + [v];
    assert xs[..k] == init[..k];
    FirstIndexUnique(xs, u, k);
  }

  /** The first occurrence is the index holding `u` with no `u` before it. */
  lemma {:induction false} FirstIndexUnique(xs: seq<Json>, u: Json, k: nat)
    requires k < |xs| && xs[k] == u && u !in xs[..k]
    ensures FirstIndex(xs, u) == k
    decreases k
  {
    if k > 0 {
      assert xs[0] in xs[..k];
      assert xs[1..][..k - 1] == xs[1..k];
      FirstIndexUnique(xs[1..], u, k - 1);
    }
  }

  /** The distinct truthy doc types of the signal rows, collected row by row. */
  method CollectDocTypes(rows: seq<BorrowSignal>) returns (docTypes: seq<Json>)
    ensures docTypes == DistinctTruthy(DocTypeColumn(rows))
  {
    docTypes := [];
    var i := 0;
    while i < |rows|
      invariant 0 <= i <= |rows|
      invariant docTypes == DistinctTruthy(DocTypeColumn(rows[..i]))
    {
      var v := rows[i].docType;
      assert DocTypeColumn(rows[..i + 1])[..i] == DocTypeColumn(rows[..i]);
      if Truthy(v) && v !in docTypes {
        docTypes := docTypes + [v];
      }
      i := i + 1;
    }
    assert rows[..|rows|] == rows;
  }

  /** The fallback query for the given history, keyword and limit. */
  function FallbackFor(rows: seq<BorrowSignal>, query: string, limit: int): (r: FallbackQuery)
    ensures |r.params| >= 1 && r.limitIdx == |r.params| && r.params[|r.params| - 1] == PInt(limit)
    ensures forall c :: c in r.conditions ==> Refers(c.idx, r.params)
    ensures |r.conditions| <= 1
  {
    var docTypes := DistinctTruthy(DocTypeColumn(rows));
    if query != "" then FallbackQuery([KeywordMatch(1)], 2, [PStr(Like(query)), PInt(limit)])
    else if |docTypes| > 0 then FallbackQuery([DocTypeIn(1)], 2, [PValue(JArr(docTypes)), PInt(limit)])
    else FallbackQuery([], 1, [PInt(limit)])
  }

  /**
   * `buildFallbackQuery`: a keyword wins over the borrow history; without
   * one, the distinct doc types of the history restrict the category;
   * without either, nothing is filtered. The limit is always the last
   * parameter and every placeholder names an existing parameter.
   */
  method BuildFallbackQuery(rows: seq<BorrowSignal>, query: string, limit: int)
    returns (sql: string, q: FallbackQuery)
    ensures query != "" ==>
      q.conditions == [KeywordMatch(1)] && q.params == [PStr(Like(query)), PInt(limit)]
    ensures query == "" && |DistinctTruthy(DocTypeColumn(rows))| > 0 ==>
      q.conditions == [DocTypeIn(1)]
      && q.params == [PValue(JArr(DistinctTruthy(DocTypeColumn(rows)))), PInt(limit)]
    ensures query == "" && |DistinctTruthy(DocTypeColumn(rows))| == 0 ==>
      q.conditions == [] && q.params == [PInt(limit)]
    ensures |q.params| >= 1 && q.limitIdx == |q.params| && q.params[|q.params| - 1] == PInt(limit)
    ensures forall c :: c in q.conditions ==> Refers(c.idx, q.params)
    ensures sql == QueryText(q) && q == FallbackFor(rows, query, limit)
  {
    var params: seq<Param> := [];
    var conditions: seq<Condition> := [];
    if query != "" {
      params := params + [PStr(Like(query))];
      var idx := |params|;
      conditions := conditions + [KeywordMatch(idx)];
    } else if |rows| > 0 {
      var docTypes := CollectDocTypes(rows);
      var historyConditions: seq<Condition> := [];
      if |docTypes| > 0 {
        params := params + [PValue(JArr(docTypes))];
        historyConditions := historyConditions + [DocTypeIn(|params|)];
      }
      if |historyConditions| > 0 {
        conditions := conditions + historyConditions;
      }
    }
    params := params + [PInt(limit)];
    q := FallbackQuery(conditions, |params|, params);
    sql := QueryText(q);
  }

  /** Keyword precedence: with a keyword, the borrow history has no effect on the query. */
  lemma KeywordIgnoresHistory(rows1: seq<BorrowSignal>, rows2: seq<BorrowSignal>, query: string, limit: int)
    requires query != ""
    ensures FallbackFor(rows1, query, limit) == FallbackFor(rows2, query, limit)
  {
  }

  /**
   * The authors of the history are never used: histories with the same
   * doc types in the same order give the same query.
   */
  lemma AuthorsIgnored(rows1: seq<BorrowSignal>, rows2: seq<BorrowSignal>, query: string, limit: int)
    requires DocTypeColumn(rows1) == DocTypeColumn(rows2)
    ensures FallbackFor(rows1, query, limit) == FallbackFor(rows2, query, limit)
  {
  }
}
