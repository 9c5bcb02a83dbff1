/**
 * `getRelatedBooks`: up to `limit` books similar to a given one. The
 * candidates come from the database (at most 30 rows sharing the
 * document type or the author); the chat model picks ids among them; the
 * picked candidates come first, in candidate order, and unpicked ones
 * top the list up to `limit`.
 */
module RelatedBooks {
  import opened Js
  import opened Text
  import opened RecService

  /** A candidate row; only its `book_id` takes part in the merge. */
  datatype Candidate = Candidate(bookId: string, title: string, author: string, publisher: Json, docType: Json)

  /** `xs.slice(0, n)`: a negative `n` counts back from the end. */
  function Take<T>(xs: seq<T>, n: int): (r: seq<T>)
    ensures n >= 0 ==> |r| == if n < |xs| then n else |xs|
    ensures n < 0 ==> |r| == if |xs| + n > 0 then |xs| + n else 0
    ensures r == xs[..|r|]
  {
    if n >= 0 then (if n < |xs| then xs[..n] else xs)
    else if |xs| + n > 0 then xs[..|xs| + n] else []
  }

  /**
   * `ids.includes(bookId)` where `includes` exists: membership for a list
   * (a string id equals only the same string), substring search for a
   * string.
   */
  predicate Includes(ids: Json, bookId: string)
    requires ids.JArr? || ids.JStr?
  {
    if ids.JArr? then JStr(bookId) in ids.items else Contains(ids.s, bookId)
  }

  /** `rows.filter(b => ids.includes(b.book_id) == want)`. */
  function Select(rows: seq<Candidate>, ids: Json, want: bool): (r: seq<Candidate>)
    requires ids.JArr? || ids.JStr?
    ensures |r| <= |rows|
  {
    if |rows| == 0 then []
    else if Includes(ids, rows[0].bookId) == want then [rows[0]] + Select(rows[1..], ids, want)
    else Select(rows[1..], ids, want)
  }

  /**
   * A candidate is kept exactly when its inclusion test says `want`, and
   * the kept ones keep their relative order.
   */
  lemma {:induction false} SelectMembers(rows: seq<Candidate>, ids: Json, want: bool)
    requires ids.JArr? || ids.JStr?
    ensures forall c :: c in Select(rows, ids, want) ==> c in rows && Includes(ids, c.bookId) == want
    ensures forall i :: 0 <= i < |rows| && Includes(ids, rows[i].bookId) == want ==> rows[i] in Select(rows, ids, want)
  {
    if |rows| > 0 {
      SelectMembers(rows[1..], ids, want);
      assert forall i :: 1 <= i < |rows| ==> rows[i] == rows[1..][i - 1];
    }
  }

  /** The picked and the unpicked candidates split the candidate list. */
  lemma {:induction false} SelectPartition(rows: seq<Candidate>, ids: Json)
    requires ids.JArr? || ids.JStr?
    ensures multiset(Select(rows, ids, true)) + multiset(Select(rows, ids, false)) == multiset(rows)
  {
    if |rows| > 0 {
      var t := rows[1..];
      SelectPartition(t, ids);
      assert rows == [rows[0]] + t;
      assert multiset(rows) == multiset{rows[0]} + multiset(t);
      if Includes(ids, rows[0].bookId) {
        assert Select(rows, ids, true) == [rows[0]] + Select(t, ids, true);
        assert Select(rows, ids, false) == Select(t, ids, false);
      } else {
        assert Select(rows, ids, true) == Select(t, ids, true);
        assert Select(rows, ids, false) == [rows[0]] + Select(t, ids, false);
      }
    }
  }

  /** Every candidate is either picked or not. */
  lemma SelectSizes(rows: seq<Candidate>, ids: Json)
    requires ids.JArr? || ids.JStr?
    ensures |Select(rows, ids, true)| + |Select(rows, ids, false)| == |rows|
  {
    SelectPartition(rows, ids);
    assert |multiset(Select(rows, ids, true))| == |Select(rows, ids, true)|;
    assert |multiset(Select(rows, ids, false))| == |Select(rows, ids, false)|;
  }

  /**
   * What the model's answer must be for the merge to run: a non-empty
   * list, or a non-empty string. Any other value is falsy, has length 0,
   * or has no `includes`, and ends in the first `limit` candidates.
   */
  predicate Picks(ids: Json)
  {
    (ids.JArr? && |ids.items| > 0) || (ids.JStr? && ids.s != "")
  }

  /**
   * The checks the answer goes through (`!ids`, `ids.length === 0`, and a
   * TypeError from a missing `includes`) let exactly the picks through.
   */
  lemma PicksAreWhatPasses(ids: Json)
    ensures Picks(ids) <==>
      Truthy(ids) && LengthProp(ids) != Some(JNum(0.0)) && (ids.JArr? || ids.JStr?)
  {
  }

  /**
   * The merge: with picks, the picked candidates followed by as many
   * unpicked ones as fit under `limit`; without, the first `limit`
   * candidates.
   */
  function Merge(rows: seq<Candidate>, ids: Json, limit: int): (r: seq<Candidate>)
    ensures !Picks(ids) ==> |r| <= |rows| && r == rows[..|r|] && (limit >= 0 ==> |r| == Min(limit, |rows|))
  {
    if !Picks(ids) then Take(rows, limit)
    else
      var chosen := Select(rows, ids, true);
      if |chosen| < limit then chosen + Take(Select(rows, ids, false), limit - |chosen|)
      else chosen
  }

  /**
   * With picks, the picked list is never cut: it is a prefix of the
   * answer, and every book after it is an unpicked one.
   */
  lemma MergeKeepsPicks(rows: seq<Candidate>, ids: Json, limit: int)
    requires Picks(ids)
    ensures var chosen := Select(rows, ids, true);
      var r := Merge(rows, ids, limit);
      |chosen| <= |r| && r[..|chosen|] == chosen
      && forall i :: |chosen| <= i < |r| ==> r[i] in rows && !Includes(ids, r[i].bookId)
  {
    var chosen := Select(rows, ids, true);
    SelectMembers(rows, ids, false);
    if |chosen| < limit {
      var top := Take(Select(rows, ids, false), limit - |chosen|);
      assert Merge(rows, ids, limit) == chosen + top;
      assert forall i :: |chosen| <= i < |chosen| + |top| ==> (chosen + top)[i] == top[i - |chosen|];
    }
  }

  /**
   * With picks, the answer has `limit` books (or all the candidates, if
   * fewer) unless the picks alone are more; then it is exactly the picks.
   */
  lemma MergeSize(rows: seq<Candidate>, ids: Json, limit: int)
    requires Picks(ids)
    ensures |Merge(rows, ids, limit)| == Max(|Select(rows, ids, true)|, Min(limit, |rows|))
  {
    SelectSizes(rows, ids);
  }

  /** Every answer takes each candidate at most as often as the candidate list holds it. */
  lemma MergeFromCandidates(rows: seq<Candidate>, ids: Json, limit: int)
    ensures multiset(Merge(rows, ids, limit)) <= multiset(rows)
  {
    var r := Merge(rows, ids, limit);
    if !Picks(ids) {
      TakeSubset(rows, limit);
    } else {
      var chosen := Select(rows, ids, true);
      var rest := Select(rows, ids, false);
      SelectPartition(rows, ids);
      if |chosen| < limit {
        TakeSubset(rest, limit - |chosen|);
        assert r == chosen + Take(rest, limit - |chosen|);
      }
    }
  }

  lemma TakeSubset<T>(xs: seq<T>, n: int)
    ensures multiset(Take(xs, n)) <= multiset(xs)
  {
    assert xs == Take(xs, n) + xs[|Take(xs, n)|..];
  }

  function Min(a: int, b: int): int { if a < b then a else b }

  function Max(a: int, b: int): int { if a < b then b else a }

  /**
   * `getRelatedBooks`. `candidates` is the candidate query's answer
   * (`None` when it throws); `messages` are the system and user prompts
   * naming the candidates. No candidates, or a failed query, give `[]`;
   * a model call that throws after its single attempt gives the first
   * `limit` candidates; otherwise the ids extracted from the answer drive
   * the merge.
   */
  method GetRelatedBooks(candidates: Option<seq<Candidate>>, limit: int,
                         messages: seq<ChatMessage>, model: Model, parse: Parser)
    returns (result: seq<Candidate>)
    ensures candidates.None? || candidates.value == [] ==> result == []
    ensures candidates.Some? && CallSpec(model, messages, 1).outcome.Threw? ==>
      result == Take(candidates.value, limit)
    ensures candidates.Some? && CallSpec(model, messages, 1).outcome.Returned? ==>
      result == Merge(candidates.value,
                      ExtractJsonArray(CallSpec(model, messages, 1).outcome.content, parse), limit)
  {
    if candidates.None? || |candidates.value| == 0 {
      return [];
    }
    var rows := candidates.value;
    var outcome, attempts := CallModel(messages, 1, model);
    if outcome.Threw? {
      return Take(rows, limit);
    }
    var ids := ExtractJsonArray(outcome.content, parse);
    PicksAreWhatPasses(ids);
    if !Truthy(ids) || LengthProp(ids) == Some(JNum(0.0)) {
      return Take(rows, limit);
    }
    if !ids.JArr? && !ids.JStr? {
      // `includes` is not a function: the TypeError is caught
      return Take(rows, limit);
    }
    result := Select(rows, ids, true);
    if |result| < limit {
      result := result + Take(Select(rows, ids, false), limit - |result|);
    }
  }
}
