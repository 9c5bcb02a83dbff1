/**
 * The recommendation service: the bounded retry loop around the chat
 * model, the bracket-scan JSON extractor, the user prompt templates, the
 * persistence of recommendations in the history table and the top-level
 * recommendation call.
 *
 * The chat model is a parameter: a function from the messages sent and the
 * attempt number to what the network answered. `JSON.parse` is a partial
 * function (`None` is a thrown SyntaxError). The database answers are
 * parameters too.
 */
module RecService {
  import opened Js
  import opened Text
  import HistoryStore

  // ---------------------------------------------------------------------
  // Model call with retries
  // ---------------------------------------------------------------------

  datatype ChatMessage = ChatMessage(role: string, content: string)

  /** What one POST to the chat endpoint ends with. */
  datatype Attempt =
    | TransportError          // fetch threw, timed out, or the body was not JSON
    | HttpNotOk               // a response whose `ok` is false
    | HttpOk(data: Json)      // the parsed response body

  /** A chat model: the answer to attempt `k` for the given messages. */
  type Model = (seq<ChatMessage>, nat) -> Attempt

  /**
   * `data.message.content` of an attempt; `None` when the attempt throws:
   * a transport error, a non-ok response, or a property read on
   * `null`/`undefined`.
   */
  function AttemptContent(a: Attempt): (r: Option<Json>)
    ensures a.TransportError? || a.HttpNotOk? ==> r.None?
    ensures a.HttpOk? && a.data.JObj? && Lookup(a.data.fields, "message").JObj? ==>
      r == Some(Lookup(Lookup(a.data.fields, "message").fields, "content"))
  {
    match a
    case HttpOk(data) =>
      (match Prop(data, "message")
       case None => None
       case Some(m) => Prop(m, "content"))
    case _ => None
  }

  predicate Failed(a: Attempt)
  {
    AttemptContent(a).None?
  }

  /** What `_callOllama` ends with: a returned value or a rethrown error. */
  datatype CallOutcome = Returned(content: Json) | Threw

  /** The outcome and the number of attempts made. */
  datatype CallResult = CallResult(outcome: CallOutcome, attempts: nat)

  /** Attempts `k`, ..., `retries - 1`, given that the earlier ones failed. */
  function CallFrom(model: Model, messages: seq<ChatMessage>, k: nat, retries: nat): (r: CallResult)
    requires k < retries
    ensures k + 1 <= r.attempts <= retries
    ensures r.outcome.Threw? <==> forall j :: k <= j < retries ==> Failed(model(messages, j))
    ensures r.outcome.Threw? ==> r.attempts == retries
    ensures r.outcome.Returned? ==>
      AttemptContent(model(messages, r.attempts - 1)) == Some(r.outcome.content)
      && forall j :: k <= j < r.attempts - 1 ==> Failed(model(messages, j))
    decreases retries - k
  {
    var a := model(messages, k);
    if !Failed(a) then CallResult(Returned(AttemptContent(a).value), k + 1)
    else if k == retries - 1 then CallResult(Threw, retries)
    else CallFrom(model, messages, k + 1, retries)
  }

  /**
   * `_callOllama`: at most `retries` attempts; the content of the first
   * successful one is returned; the error is rethrown only when every
   * attempt, the last included, failed. With no attempt allowed the call
   * returns `undefined`.
   */
  function CallSpec(model: Model, messages: seq<ChatMessage>, retries: int): (r: CallResult)
    ensures retries <= 0 ==> r == CallResult(Returned(JUndefined), 0)
    ensures retries > 0 ==> 1 <= r.attempts <= retries
    ensures r.outcome.Threw? <==> retries > 0 && forall j :: 0 <= j < retries ==> Failed(model(messages, j))
    ensures retries > 0 && r.outcome.Returned? ==>
      AttemptContent(model(messages, r.attempts - 1)) == Some(r.outcome.content)
      && forall j :: 0 <= j < r.attempts - 1 ==> Failed(model(messages, j))
  {
    if retries <= 0 then CallResult(Returned(JUndefined), 0)
    else CallFrom(model, messages, 0, retries)
  }

  /** The retry loop of `_callOllama`. */
  method CallModel(messages: seq<ChatMessage>, retries: int, model: Model)
    returns (outcome: CallOutcome, attempts: nat)
    ensures CallResult(outcome, attempts) == CallSpec(model, messages, retries)
  {
    var attempt: nat := 0;
    while attempt < retries
      invariant retries > 0 ==> attempt < retries
      invariant retries > 0 ==> CallFrom(model, messages, attempt, retries) == CallSpec(model, messages, retries)
    {
      var content := AttemptContent(model(messages, attempt));
      if content.Some? {
        return Returned(content.value), attempt + 1;
      }
      if attempt == retries - 1 {
        return Threw, retries;
      }
      attempt := attempt + 1;
    }
    return Returned(JUndefined), 0;
  }

  /**
   * A non-ok HTTP response counts as a failed attempt exactly like a
   * transport error: two models whose attempts agree on their content give
   * the same call result.
   */
  lemma {:induction false} CallDependsOnContentOnly(m1: Model, m2: Model, messages: seq<ChatMessage>, retries: int)
    requires forall j: nat :: AttemptContent(m1(messages, j)) == AttemptContent(m2(messages, j))
    ensures CallSpec(m1, messages, retries) == CallSpec(m2, messages, retries)
  {
    if retries > 0 {
      CallFromDependsOnContentOnly(m1, m2, messages, 0, retries);
    }
  }

  lemma {:induction false} CallFromDependsOnContentOnly(m1: Model, m2: Model, messages: seq<ChatMessage>, k: nat, retries: nat)
    requires k < retries
    requires forall j: nat :: AttemptContent(m1(messages, j)) == AttemptContent(m2(messages, j))
    ensures CallFrom(m1, messages, k, retries) == CallFrom(m2, messages, k, retries)
    decreases retries - k
  {
    if k < retries - 1 {
      CallFromDependsOnContentOnly(m1, m2, messages, k + 1, retries);
    }
  }

  // ---------------------------------------------------------------------
  // JSON array extraction
  // ---------------------------------------------------------------------

  /** A partial `JSON.parse`: `None` is a thrown SyntaxError. */
  type Parser = string -> Option<Json>

  /**
   * The text `extractJsonArray` parses: from the first `[` through the last
   * `]`. When the last `]` comes before the first `[`, `substring` swaps its
   * bounds and the text between them is taken instead.
   */
  function BracketSlice(s: string): (r: string)
    requires '[' in s && ']' in s
    ensures IndexOf(s, '[') <= LastIndexOf(s, ']') ==>
      r == s[IndexOf(s, '[')..LastIndexOf(s, ']') + 1] && r[0] == '[' && r[|r| - 1] == ']'
    ensures LastIndexOf(s, ']') < IndexOf(s, '[') ==>
      r == s[LastIndexOf(s, ']') + 1..IndexOf(s, '[')] && '[' !in r && ']' !in r
  {
    var start := IndexOf(s, '[');
    var end := LastIndexOf(s, ']');
    if end < start then
      SwappedSlice(s, start, end);
      Substring(s, start, end + 1)
    else Substring(s, start, end + 1)
  }

  /**
   * Between a last `]` and a later first `[` there is no bracket: the text
   * before the first `[` holds no `[`, the text after the last `]` no `]`.
   */
  lemma SwappedSlice(s: string, start: nat, end: nat)
    requires end < start < |s|
    requires forall j :: 0 <= j < start ==> s[j] != '['
    requires forall j :: end < j < |s| ==> s[j] != ']'
    ensures '[' !in s[end + 1..start] && ']' !in s[end + 1..start]
  {
    var t := s[end + 1..start];
    forall k | 0 <= k < |t|
      ensures t[k] != '[' && t[k] != ']'
    {
      assert t[k] == s[end + 1 + k];
    }
  }


  /**
   * `extractJsonArray`: the parse of the bracketed text; `[]` when the text
   * is not a string, either bracket is missing, or the parse throws.
   */
  function ExtractJsonArray(text: Json, parse: Parser): (r: Json)
    ensures !text.JStr? ==> r == JArr([])
    ensures text.JStr? && ('[' !in text.s || ']' !in text.s) ==> r == JArr([])
    ensures text.JStr? && '[' in text.s && ']' in text.s ==>
      r == (match parse(BracketSlice(text.s)) case None => JArr([]) case Some(v) => v)
  {
    match text
    case JStr(s) =>
      var start := IndexOf(s, '[');
      var end := LastIndexOf(s, ']');
      if start != -1 && end != -1 then
        match parse(BracketSlice(s))
        case None => JArr([])
        case Some(v) => v
      else JArr([])
    case _ => JArr([])
  }

  /**
   * The extractor does not always return an array: in `"]5["` the last `]`
   * precedes the first `[`, the swapped `substring` yields `"5"`, and a
   * parser that reads it as a number makes the result the number 5.
   */
  lemma ExtractMayReturnNonArray()
    ensures ExtractJsonArray(JStr("]5["), s => if s == "5" then Some(JNum(5.0)) else None) == JNum(5.0)
  {
    var s := "]5[";
    assert IndexOf(s, '[') == 2;
    assert LastIndexOf(s, ']') == 0;
    assert BracketSlice(s) == "5";
  }

  // ---------------------------------------------------------------------
  // Reading history and prompts
  // ---------------------------------------------------------------------

  /** One row of the reader's recent-borrows query; `None` is SQL NULL. */
  datatype BorrowedBookRow = BorrowedBookRow(bookTitle: Option<string>, author: Option<string>)

  datatype RecentBook = RecentBook(title: string, author: string)

  /** `row.col || ""` for a text column. */
  function TextOr(v: Option<string>): string
  {
    if v.Some? then v.value else ""
  }

  /**
   * `getReaderRecentBooks`: one entry per row, title and author defaulting
   * to `""`; a failed query (`None`) gives no books.
   */
  function RecentBooks(rows: Option<seq<BorrowedBookRow>>): (r: seq<RecentBook>)
    ensures rows.None? ==> r == []
    ensures rows.Some? ==> |r| == |rows.value|
    ensures rows.Some? ==> forall i :: 0 <= i < |r| ==>
      (rows.value[i].bookTitle.Some? ==> r[i].title == rows.value[i].bookTitle.value)
      && (rows.value[i].bookTitle.None? ==> r[i].title == "")
      && (rows.value[i].author.Some? ==> r[i].author == rows.value[i].author.value)
      && (rows.value[i].author.None? ==> r[i].author == "")
  {
    if rows.None? then []
    else
      seq(|rows.value|, i requires 0 <= i < |rows.value| =>
        RecentBook(TextOr(rows.value[i].bookTitle), TextOr(rows.value[i].author)))
  }

  /** The history line of one book: `- 《title》（author）`. */
  function HistoryLine(b: RecentBook): (r: string)
    ensures Contains(r, b.title) && Contains(r, b.author)
  {
    OccursBetween("- 《", b.title, "》（" + b.author + "）");
    OccursBetween("- 《" + b.title + "》（", b.author, "）");
    assert "- 《" + b.title + ("》（" + b.author + "）") == "- 《" + b.title + "》（" + b.author + "）";
    "- 《" + b.title + "》（" + b.author + "）"
  }

  function HistoryLines(books: seq<RecentBook>): (r: seq<string>)
    ensures |r| == |books|
    ensures forall i :: 0 <= i < |books| ==> r[i] == HistoryLine(books[i])
  {
    if |books| == 0 then [] else [HistoryLine(books[0])] + HistoryLines(books[1..])
  }

  /** The history block: the history lines joined by newlines. */
  function HistoryText(books: seq<RecentBook>): string
  {
    Join(HistoryLines(books), "\n")
  }

  /** Every book of the history has its line in the history block. */
  lemma {:induction false} HistoryTextHasEveryBook(books: seq<RecentBook>, i: nat)
    requires i < |books|
    ensures Contains(HistoryText(books), HistoryLine(books[i]))
    decreases |books|
  {
    var lines := HistoryLines(books);
    if |books| == 1 {
      OccursBetween("", lines[0], "");
      assert "" + lines[0] + "" == HistoryText(books);
    } else if i == 0 {
      OccursBetween("", lines[0], "\n" + Join(lines[1..], "\n"));
      assert "" + lines[0] + ("\n" + Join(lines[1..], "\n")) == HistoryText(books);
    } else {
      HistoryTextHasEveryBook(books[1..], i - 1);
      assert HistoryLines(books[1..]) == lines[1..];
      ContainsWithin(lines[0] + "\n", Join(lines[1..], "\n"), "", HistoryLine(books[i]));
      assert lines[0] + "\n" + Join(lines[1..], "\n") + "" == HistoryText(books);
    }
  }

  const HistoryIntro: string := "我最近阅读了以下书籍: "
  const KeywordHistory1: string := "\n      现在我对关键词含有 "
  const KeywordHistory2: string := " 的书籍感兴趣，请结合我的阅读历史和这个关键词，为我推荐 "
  const KeywordHistory3: string := " 条相关书籍。请严格按照 "
  const HistoryOnly1: string := "\n      请根据我的阅读历史，为我推荐 "
  const HistoryOnly2: string := " 条可能会感兴趣的新书。请严格按照 "
  const KeywordOnly1: string := "我对关键词 "
  const KeywordOnly2: string := " 感兴趣，请为我推荐 "
  const KeywordOnly3: string := " 条相关的优质书籍。请严格按照 "
  const General1: string := "请为我推荐 "
  const General2: string := " 条优质的书籍。请严格按照 "
  const Tail: string := " 本的数量进行推荐。"

  /** The template for reading history `h` and the quoted keyword `q`, asking for `c` books. */
  function KeywordHistoryPrompt(h: string, q: string, c: string): string
  {
    h + KeywordHistory1 + q + KeywordHistory2 + c + (KeywordHistory3 + c + Tail)
  }

  /** The template for reading history `h` alone, asking for `c` books. */
  function HistoryOnlyPrompt(h: string, c: string): string
  {
    h + HistoryOnly1 + c + HistoryOnly2 + c + Tail
  }

  /** The template for the quoted keyword `q` alone, asking for `c` books. */
  function KeywordOnlyPrompt(q: string, c: string): string
  {
    KeywordOnly1 + q + KeywordOnly2 + c + (KeywordOnly3 + c + Tail)
  }

  /** The template with neither history nor keyword, asking for `c` books. */
  function GeneralPrompt(c: string): string
  {
    General1 + c + General2 + c + Tail
  }

  /**
   * `buildUserPrompt`: one of four templates chosen by whether there is
   * reading history and whether the keyword is non-empty. Every template
   * embeds the count; the history templates open with the history block,
   * the others do not; the keyword templates quote the keyword.
   */
  function UserPrompt(recent: seq<RecentBook>, query: string, count: nat): (r: string)
    ensures Contains(r, NatToString(count))
    ensures |recent| > 0 ==> StartsWith(r, HistoryIntro + HistoryText(recent))
    ensures |recent| == 0 ==> !StartsWith(r, HistoryIntro)
    ensures query != "" ==> Contains(r, "\"" + query + "\"")
  {
    var c := NatToString(count);
    var q := "\"" + query + "\"";
    var h := HistoryIntro + HistoryText(recent);
    if |recent| > 0 && query != "" then
      KeywordHistoryShape(h, q, c);
      KeywordHistoryPrompt(h, q, c)
    else if |recent| > 0 then
      HistoryOnlyShape(h, c);
      HistoryOnlyPrompt(h, c)
    else if query != "" then
      KeywordOnlyShape(q, c);
      KeywordOnlyPrompt(q, c)
    else
      GeneralShape(c);
      GeneralPrompt(c)
  }

  lemma KeywordHistoryShape(h: string, q: string, c: string)
    ensures var r := KeywordHistoryPrompt(h, q, c); StartsWith(r, h) && Contains(r, q) && Contains(r, c)
  {
    Embeds(h + KeywordHistory1, q, KeywordHistory2, c, KeywordHistory3 + c + Tail);
    HistoryOpening(h, KeywordHistory1 + q + KeywordHistory2 + c + (KeywordHistory3 + c + Tail));
  }

  lemma HistoryOnlyShape(h: string, c: string)
    ensures var r := HistoryOnlyPrompt(h, c); StartsWith(r, h) && Contains(r, c)
  {
    Embeds(h + HistoryOnly1, c, HistoryOnly2, c, Tail);
    HistoryOpening(h, HistoryOnly1 + c + HistoryOnly2 + c + Tail);
  }

  lemma KeywordOnlyShape(q: string, c: string)
    ensures var r := KeywordOnlyPrompt(q, c); !StartsWith(r, HistoryIntro) && Contains(r, q) && Contains(r, c)
  {
    Embeds(KeywordOnly1, q, KeywordOnly2, c, KeywordOnly3 + c + Tail);
    NotHistoryOpening(KeywordOnly1, q + KeywordOnly2 + c + (KeywordOnly3 + c + Tail));
  }

  lemma GeneralShape(c: string)
    ensures var r := GeneralPrompt(c); !StartsWith(r, HistoryIntro) && Contains(r, c)
  {
    Embeds(General1, c, General2, c, Tail);
    NotHistoryOpening(General1, c + General2 + c + Tail);
  }

  /** A template `a + x + b + y + d` contains both inserted values. */
  lemma Embeds(a: string, x: string, b: string, y: string, d: string)
    ensures Contains(a + x + b + y + d, x) && Contains(a + x + b + y + d, y)
  {
    OccursBetween(a, x, b + y + d);
    assert a + x + (b + y + d) == a + x + b + y + d;
    OccursBetween(a + x + b, y, d);
  }

  /** Texts that open with the keyword or general template do not open with the history intro. */
  lemma NotHistoryOpening(opening: string, rest: string)
    requires opening == KeywordOnly1 || opening == General1
    ensures !StartsWith(opening + rest, HistoryIntro)
  {
    assert (opening + rest)[1] == opening[1] != HistoryIntro[1];
  }

  /** The history block opens the prompt whenever there is history. */
  lemma HistoryOpening(h: string, rest: string)
    ensures StartsWith(h + rest, h)
  {
    assert (h + rest)[..|h|] == h;
  }

  /**
   * The two messages a recommendation request sends: the fixed system
   * instructions, then the user prompt.
   */
  function RecommendationMessages(instructions: string, recent: seq<RecentBook>, query: string, count: nat): seq<ChatMessage>
  {
    [ChatMessage("system", instructions), ChatMessage("user", UserPrompt(recent, query, count))]
  }

  /**
   * `getOllamaRecommendations`: the model is called with two attempts; a
   * call that throws becomes `[]`, otherwise the content goes through the
   * extractor.
   */
  method GetOllamaRecommendations(instructions: string, recent: seq<RecentBook>, query: string, count: nat, model: Model, parse: Parser)
    returns (recs: Json)
    ensures var call := CallSpec(model, RecommendationMessages(instructions, recent, query, count), 2);
      && (call.outcome.Threw? ==> recs == JArr([]))
      && (call.outcome.Returned? ==> recs == ExtractJsonArray(call.outcome.content, parse))
    ensures (Failed(model(RecommendationMessages(instructions, recent, query, count), 0))
             && Failed(model(RecommendationMessages(instructions, recent, query, count), 1))) ==> recs == JArr([])
  {
    var messages := RecommendationMessages(instructions, recent, query, count);
    var outcome, _ := CallModel(messages, 2, model);
    if outcome.Threw? {
      recs := JArr([]);
    } else {
      recs := ExtractJsonArray(outcome.content, parse);
    }
  }

  // ---------------------------------------------------------------------
  // History persistence
  // ---------------------------------------------------------------------

  /** The three inserted columns of an item, `rec.x || ""`; `None` when reading them throws. */
  function ItemColumns(rec: Json): (r: Option<(Json, Json, Json)>)
    ensures r.None? <==> Nullish(rec)
    ensures r.Some? ==> Truthy(r.value.0) || r.value.0 == JStr("")
  {
    match Prop(rec, "title")
    case None => None
    case Some(t) =>
      Some((Or(t, JStr("")), Or(Prop(rec, "author").value, JStr("")), Or(Prop(rec, "reason").value, JStr(""))))
  }

  /** Reading the columns of each of the first `n` items succeeds. */
  predicate Readable(xs: seq<Json>, n: nat)
    requires n <= |xs|
  {
    forall j :: 0 <= j < n ==> !Nullish(xs[j])
  }

  /** Index of the first item whose insert throws (a nullish item or a failed insert); `|xs|` if none. */
  function FirstFailure(xs: seq<Json>, failing: set<nat>, k: nat): (n: nat)
    requires k <= |xs|
    ensures k <= n <= |xs|
    ensures forall j :: k <= j < n ==> !Nullish(xs[j]) && j !in failing
    ensures n < |xs| ==> Nullish(xs[n]) || n in failing
    decreases |xs| - k
  {
    if k == |xs| then k
    else if Nullish(xs[k]) || k in failing then k
    else FirstFailure(xs, failing, k + 1)
  }

  /** The history row inserted for one item. */
  function RowOf(readerId: string, modelUsed: string, x: Json, id: nat): HistoryStore.HistoryRow
    requires !Nullish(x)
  {
    var cols := ItemColumns(x).value;
    HistoryStore.HistoryRow(id, readerId, modelUsed, cols.0, cols.1, cols.2, JNull, None)
  }

  /** The rows inserted for the first `n` items, ids counting up from `firstId`. */
  function RowsFor(readerId: string, modelUsed: string, xs: seq<Json>, n: nat, firstId: nat)
    : (r: seq<HistoryStore.HistoryRow>)
    requires n <= |xs| && Readable(xs, n)
    ensures |r| == n
  {
    if n == 0 then []
    else RowsFor(readerId, modelUsed, xs, n - 1, firstId) + [RowOf(readerId, modelUsed, xs[n - 1], firstId + n - 1)]
  }

  /** Row `j` is the row of item `j`, with id `firstId + j`. */
  lemma {:induction false} RowsForAt(readerId: string, modelUsed: string, xs: seq<Json>, n: nat, firstId: nat, j: nat)
    requires n <= |xs| && Readable(xs, n) && j < n
    ensures RowsFor(readerId, modelUsed, xs, n, firstId)[j] == RowOf(readerId, modelUsed, xs[j], firstId + j)
  {
    if j < n - 1 {
      RowsForAt(readerId, modelUsed, xs, n - 1, firstId, j);
    }
  }

  /** The rows a save leaves behind: one per item before the first failure. */
  function SavedRows(readerId: string, modelUsed: string, xs: seq<Json>, failing: set<nat>, firstId: nat)
    : (r: seq<HistoryStore.HistoryRow>)
    ensures |r| == FirstFailure(xs, failing, 0)
  {
    RowsFor(readerId, modelUsed, xs, FirstFailure(xs, failing, 0), firstId)
  }

  /** `{...rec, id}`: the item's own properties with `id` set to its new recommendation id. */
  function WithId(rec: Json, id: nat): (r: Json)
    ensures r.JObj? && Lookup(r.fields, "id") == JNum(id as real)
  {
    JObj(SetField(Spread(rec), "id", JNum(id as real)))
  }

  /** The first `n` items with ids counting up from `firstId`. */
  function WithIds(xs: seq<Json>, n: nat, firstId: nat): (r: seq<Json>)
    requires n <= |xs|
    ensures |r| == n
  {
    if n == 0 then [] else WithIds(xs, n - 1, firstId) + [WithId(xs[n - 1], firstId + n - 1)]
  }

  /** Item `j` of the result is item `j` of the input, with id `firstId + j`. */
  lemma {:induction false} WithIdsAt(xs: seq<Json>, n: nat, firstId: nat, j: nat)
    requires n <= |xs| && j < n
    ensures WithIds(xs, n, firstId)[j] == WithId(xs[j], firstId + j)
  {
    if j < n - 1 {
      WithIdsAt(xs, n - 1, firstId, j);
    }
  }

  /** One more insert extends the rows of the first `i` items to the first `i + 1`. */
  lemma InsertStep(readerId: string, modelUsed: string, xs: seq<Json>, i: nat, firstId: nat,
                   rows0: seq<HistoryStore.HistoryRow>, rows: seq<HistoryStore.HistoryRow>)
    requires i < |xs| && Readable(xs, i) && !Nullish(xs[i])
    requires rows == rows0 + RowsFor(readerId, modelUsed, xs, i, firstId) + [RowOf(readerId, modelUsed, xs[i], firstId + i)]
    ensures Readable(xs, i + 1)
    ensures rows == rows0 + RowsFor(readerId, modelUsed, xs, i + 1, firstId)
  {
    assert RowsFor(readerId, modelUsed, xs, i + 1, firstId)
      == RowsFor(readerId, modelUsed, xs, i, firstId) + [RowOf(readerId, modelUsed, xs[i], firstId + i)];
  }

  /** One more saved item extends the items of the first `i` items to the first `i + 1`. */
  lemma WithIdsStep(xs: seq<Json>, i: nat, firstId: nat)
    requires i < |xs|
    ensures WithIds(xs, i + 1, firstId) == WithIds(xs, i, firstId) + [WithId(xs[i], firstId + i)]
  {
  }

  /** What `saveRecommendationHistory` ends with. */
  datatype SaveResult = Saved(items: seq<Json>) | SaveThrew

  /**
   * `saveRecommendationHistory`: one insert per item, in order; the result
   * lists every item with its new id attached. The first item whose insert
   * throws ends the call with an error; the rows inserted before it stay
   * (no transaction). A value that is not iterable throws before any insert.
   */
  method SaveRecommendationHistory(store: HistoryStore.Table, readerId: string, modelUsed: string,
                                   recs: Json, failing: set<nat>)
    returns (res: SaveResult)
    requires store.Valid()
    modifies store
    ensures store.Valid()
    ensures Elements(recs).None? ==> res == SaveThrew && store.rows == old(store.rows)
    ensures Elements(recs).Some? ==>
      store.rows == old(store.rows) + SavedRows(readerId, modelUsed, Elements(recs).value, failing, old(store.nextId))
    ensures Elements(recs).Some? ==>
      (res.Saved? <==> FirstFailure(Elements(recs).value, failing, 0) == |Elements(recs).value|)
    ensures res.Saved? ==>
      Elements(recs).Some? && res.items == WithIds(Elements(recs).value, |Elements(recs).value|, old(store.nextId))
  {
    var elements := Elements(recs);
    if elements.None? {
      return SaveThrew;
    }
    ghost var k;
    res, k := InsertAll(store, readerId, modelUsed, elements.value, failing);
  }

  /** The insert of one item: its three columns, `x || ""` each, under a fresh id. */
  method InsertItem(store: HistoryStore.Table, readerId: string, modelUsed: string, rec: Json)
    returns (id: nat)
    requires store.Valid() && !Nullish(rec)
    modifies store
    ensures store.Valid()
    ensures id == old(store.nextId) && store.nextId == id + 1
    ensures store.rows == old(store.rows) + [RowOf(readerId, modelUsed, rec, id)]
  {
    var cols := ItemColumns(rec).value;
    id := store.Insert(readerId, modelUsed, cols.0, cols.1, cols.2);
  }

  /** One turn of the insert loop: inserts item `i` and appends it, with its id, to the saved items. */
  method InsertNext(store: HistoryStore.Table, readerId: string, modelUsed: string, xs: seq<Json>, i: nat,
                    id0: nat, ghost rows0: seq<HistoryStore.HistoryRow>, saved: seq<Json>)
    returns (saved': seq<Json>)
    requires i < |xs| && Readable(xs, i) && !Nullish(xs[i])
    requires store.Valid() && store.nextId == id0 + i
    requires store.rows == rows0 + RowsFor(readerId, modelUsed, xs, i, id0)
    requires saved == WithIds(xs, i, id0)
    modifies store
    ensures Readable(xs, i + 1)
    ensures store.Valid() && store.nextId == id0 + i + 1
    ensures store.rows == rows0 + RowsFor(readerId, modelUsed, xs, i + 1, id0)
    ensures saved' == WithIds(xs, i + 1, id0)
  {
    var id := InsertItem(store, readerId, modelUsed, xs[i]);
    InsertStep(readerId, modelUsed, xs, i, id0, rows0, store.rows);
    WithIdsStep(xs, i, id0);
    saved' := saved + [WithId(xs[i], id)];
  }

  /** The insert loop of `saveRecommendationHistory` over the items. */
  method InsertAll(store: HistoryStore.Table, readerId: string, modelUsed: string,
                   xs: seq<Json>, failing: set<nat>)
    returns (res: SaveResult, ghost k: nat)
    requires store.Valid()
    modifies store
    ensures store.Valid()
    ensures k == FirstFailure(xs, failing, 0) && Readable(xs, k)
    ensures store.rows == old(store.rows) + RowsFor(readerId, modelUsed, xs, k, old(store.nextId))
    ensures res.Saved? <==> k == |xs|
    ensures res.Saved? ==> res.items == WithIds(xs, k, old(store.nextId))
  {
    ghost var n := FirstFailure(xs, failing, 0);
    ghost var rows0 := store.rows;
    var id0 := store.nextId;
    var saved: seq<Json> := [];
    var i := 0;
    while i < |xs| && !Nullish(xs[i]) && i !in failing
      invariant i <= n && Readable(xs, i)
      invariant store.Valid() && store.nextId == id0 + i
      invariant store.rows == rows0 + RowsFor(readerId, modelUsed, xs, i, id0)
      invariant saved == WithIds(xs, i, id0)
    {
      saved := InsertNext(store, readerId, modelUsed, xs, i, id0, rows0, saved);
      i := i + 1;
    }
    if i < |xs| {
      return SaveThrew, i;
    }
    return Saved(saved), i;
  }

  /** Inserted rows follow the input order and default missing text to `""`. */
  lemma RowsForDefaults(readerId: string, modelUsed: string, xs: seq<Json>, n: nat, firstId: nat, j: nat)
    requires n <= |xs| && Readable(xs, n) && j < n
    ensures var row := RowsFor(readerId, modelUsed, xs, n, firstId)[j];
      && row.id == firstId + j && row.readerId == readerId && row.modelUsed == modelUsed
      && (Truthy(row.title) || row.title == JStr(""))
      && (xs[j].JObj? && Truthy(Lookup(xs[j].fields, "title")) ==> row.title == Lookup(xs[j].fields, "title"))
      && (xs[j].JObj? && !Truthy(Lookup(xs[j].fields, "reason")) ==> row.reason == JStr(""))
  {
    RowsForAt(readerId, modelUsed, xs, n, firstId, j);
  }

  // ---------------------------------------------------------------------
  // The recommendation call
  // ---------------------------------------------------------------------

  /**
   * The response object of `getBookRecommendations`. `success` holds the
   * value of `recommendations && recommendations.length > 0`, which is the
   * falsy list itself when the list is falsy.
   */
  datatype ServiceResponse = ServiceResponse(
    success: Json, readerId: string, modelUsed: string, query: string,
    hasHistory: bool, count: Json, recommendations: Json, error: Option<string>)

  /** The list the model path produces before persistence; `[]` unless the model is "ollama". */
  function ModelList(instructions: string, recent: seq<RecentBook>, model: string, query: string, count: nat, llm: Model, parse: Parser): Json
  {
    if AsciiLower(model) != "ollama" then JArr([])
    else
      var call := CallSpec(llm, RecommendationMessages(instructions, recent, query, count), 2);
      if call.outcome.Threw? then JArr([]) else ExtractJsonArray(call.outcome.content, parse)
  }

  /** The list saved and returned succeeds exactly when it is non-empty and every insert goes through. */
  predicate SavedWhole(list: Json, failing: set<nat>)
  {
    Truthy(list) && NonEmpty(list) && Elements(list).Some?
    && FirstFailure(Elements(list).value, failing, 0) == |Elements(list).value|
  }

  /**
   * `getBookRecommendations`: success holds exactly when the model's list
   * is non-empty and its history was saved, and then the response carries
   * the saved items with their ids; history is written only for a
   * non-empty list; a model other than "ollama" (in any letter case)
   * yields an empty, unsuccessful result and writes nothing.
   */
  method GetBookRecommendations(store: HistoryStore.Table, instructions: string, readerId: string, model: string, query: string, count: nat,
                                recentRows: Option<seq<BorrowedBookRow>>, llm: Model, parse: Parser,
                                failing: set<nat>)
    returns (resp: ServiceResponse)
    requires store.Valid()
    modifies store
    ensures store.Valid() && old(store.rows) <= store.rows
    ensures resp.modelUsed == model && resp.readerId == readerId && resp.query == query
    ensures resp.hasHistory <==> |RecentBooks(recentRows)| > 0
    ensures AsciiLower(model) != "ollama" ==>
      resp.success == JBool(false) && resp.recommendations == JArr([]) && resp.count == JNum(0.0)
      && resp.error.None? && store.rows == old(store.rows)
    ensures var list := ModelList(instructions, RecentBooks(recentRows), model, query, count, llm, parse);
      !(Truthy(list) && NonEmpty(list)) ==> store.rows == old(store.rows)
    ensures var list := ModelList(instructions, RecentBooks(recentRows), model, query, count, llm, parse);
      Truthy(resp.success) <==> SavedWhole(list, failing)
    ensures var list := ModelList(instructions, RecentBooks(recentRows), model, query, count, llm, parse);
      Truthy(resp.success) ==>
        resp.error.None?
        && resp.recommendations == JArr(WithIds(Elements(list).value, |Elements(list).value|, old(store.nextId)))
        && store.rows == old(store.rows) + RowsFor(readerId, model, Elements(list).value, |Elements(list).value|, old(store.nextId))
    ensures var list := ModelList(instructions, RecentBooks(recentRows), model, query, count, llm, parse);
      Truthy(list) && NonEmpty(list) && !SavedWhole(list, failing) ==>
        resp.success == JBool(false) && resp.count == JNum(0.0) && resp.recommendations == JArr([])
        && resp.error == Some("insert failed")
  {
    var recent := RecentBooks(recentRows);
    var recommendations := JArr([]);
    if AsciiLower(model) == "ollama" {
      recommendations := GetOllamaRecommendations(instructions, recent, query, count, llm, parse);
    }
    resp := Respond(store, readerId, model, query, |recent| > 0, recommendations, failing);
  }

  /** The part of `getBookRecommendations` after the model call: persistence and the response object. */
  method Respond(store: HistoryStore.Table, readerId: string, model: string, query: string, hasHistory: bool,
                 recommendations: Json, failing: set<nat>)
    returns (resp: ServiceResponse)
    requires store.Valid()
    modifies store
    ensures store.Valid() && old(store.rows) <= store.rows
    ensures resp.modelUsed == model && resp.readerId == readerId && resp.query == query
    ensures resp.hasHistory == hasHistory
    ensures recommendations == JArr([]) ==>
      resp.success == JBool(false) && resp.recommendations == JArr([]) && resp.count == JNum(0.0) && resp.error.None?
    ensures !(Truthy(recommendations) && NonEmpty(recommendations)) ==> store.rows == old(store.rows)
    ensures Truthy(resp.success) <==> SavedWhole(recommendations, failing)
    ensures Truthy(resp.success) ==>
      resp.error.None?
      && resp.recommendations == JArr(WithIds(Elements(recommendations).value, |Elements(recommendations).value|, old(store.nextId)))
      && store.rows == old(store.rows) + RowsFor(readerId, model, Elements(recommendations).value, |Elements(recommendations).value|, old(store.nextId))
    ensures Truthy(recommendations) && NonEmpty(recommendations) && !SavedWhole(recommendations, failing) ==>
      resp == ServiceResponse(JBool(false), readerId, model, query, hasHistory, JNum(0.0), JArr([]), Some("insert failed"))
  {
    var saved := recommendations;
    if Truthy(recommendations) && NonEmpty(recommendations) {
      var res := SaveRecommendationHistory(store, readerId, model, recommendations, failing);
      if res.SaveThrew? {
        return ServiceResponse(JBool(false), readerId, model, query, hasHistory, JNum(0.0), JArr([]),
                               Some("insert failed"));
      }
      saved := JArr(res.items);
    }
    var success := if Truthy(recommendations) then JBool(NonEmpty(recommendations)) else recommendations;
    var length := LengthProp(recommendations);
    if length.None? {
      return ServiceResponse(JBool(false), readerId, model, query, hasHistory, JNum(0.0), JArr([]),
                             Some("cannot read length"));
    }
    resp := ServiceResponse(success, readerId, model, query, hasHistory, length.value, saved, None);
  }

  /**
   * An object `{"length": "5"}` passes the guard `list && list.length > 0`
   * (the string "5" compares above zero) but is not iterable, so the save
   * throws and the caller answers with the error response.
   */
  lemma ObjectWithLengthFails(failing: set<nat>)
    ensures var v := JObj([Field("length", JStr("5"))]);
      Truthy(v) && NonEmpty(v) && Elements(v).None? && !SavedWhole(v, failing)
  {
    var v := JObj([Field("length", JStr("5"))]);
    assert LengthProp(v) == Some(JStr("5"));
    DigitStringPositive("5");
    assert HasNonZeroDigit("5") by { assert '1' <= "5"[0] <= '9'; }
  }
}
