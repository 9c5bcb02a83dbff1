/**
 * The Ollama manager: reconciling the models the Ollama service lists with
 * the `ai_models` registry, following a model pull's progress stream, and
 * the health check's status decision. The service's HTTP answers and the
 * database's answers are inputs.
 */
module OllamaManager {
  import opened Js
  import opened Text
  import opened RecService

  // ---------------------------------------------------------------------
  // syncModelsToDatabase
  // ---------------------------------------------------------------------

  datatype Action = Updated | Added | Failed | Deactivated

  /** One entry of `results`; a failed write has no model id (`undefined`). */
  datatype SyncEntry = SyncEntry(model: string, action: Action, modelId: Json)

  /** What the pass over the remote models has produced so far. */
  datatype Pass = Pass(results: seq<SyncEntry>, pending: seq<Field>)

  datatype SyncOutcome = SyncThrew | Synced(results: seq<SyncEntry>, total: nat)

  /**
   * One remote model: its write fails (an entry `error`), or it updates
   * the registered row of that name and leaves the pending map, or it is
   * inserted under the id the insert returns.
   */
  function Reconcile(p: Pass, i: nat, name: string, failing: set<nat>, insertedId: nat -> Json): (r: Pass)
    ensures |r.results| == |p.results| + 1 && r.results[..|p.results|] == p.results
    ensures r.results[|p.results|].model == name
    ensures r.results[|p.results|].action == Failed <==> i in failing
  {
    if i in failing then Pass(p.results + [SyncEntry(name, Failed, JUndefined)], p.pending)
    else if name in Keys(p.pending) then
      Pass(p.results + [SyncEntry(name, Updated, Lookup(p.pending, name))], Remove(p.pending, name))
    else Pass(p.results + [SyncEntry(name, Added, insertedId(i))], p.pending)
  }

  /** The pass over the first `n` remote models, starting from the registered ones. */
  function PassOver(models: seq<string>, n: nat, registered: seq<Field>, failing: set<nat>,
                    insertedId: nat -> Json): (r: Pass)
    requires n <= |models|
    ensures |r.results| == n
  {
    if n == 0 then Pass([], registered)
    else Reconcile(PassOver(models, n - 1, registered, failing, insertedId), n - 1, models[n - 1], failing, insertedId)
  }

  /** The entries for the registered models the pass did not update, in map order. */
  function Deactivations(pending: seq<Field>): (r: seq<SyncEntry>)
    ensures |r| == |pending|
  {
    seq(|pending|, k requires 0 <= k < |pending| => SyncEntry(pending[k].key, Deactivated, pending[k].val))
  }

  /**
   * The whole sync. `models` is the service's list of names and `rows`
   * the registered `(model_name, model_id)` pairs; `None` is a failed
   * request or query. `failing` holds the positions whose write throws,
   * `insertedId` the id an insert returns, and `deactivateFails` the
   * positions in the deactivation loop whose update throws.
   */
  function Sync(models: Option<seq<string>>, rows: Option<seq<Field>>, failing: set<nat>,
                insertedId: nat -> Json, deactivateFails: set<nat>): (r: SyncOutcome)
    ensures models.Some? && rows.Some? && deactivateFails == {} ==> r.Synced?
    ensures r.Synced? ==> models.Some? && rows.Some? && r.total == |models.value| && |models.value| <= |r.results|
  {
    if models.None? || rows.None? then SyncThrew
    else
      var p := PassOver(models.value, |models.value|, Assign([], rows.value), failing, insertedId);
      if exists k :: k in deactivateFails && k < |p.pending| then SyncThrew
      else Synced(p.results + Deactivations(p.pending), |models.value|)
  }

  /** `syncModelsToDatabase`, loop by loop. */
  method SyncModelsToDatabase(models: Option<seq<string>>, rows: Option<seq<Field>>, failing: set<nat>,
                              insertedId: nat -> Json, deactivateFails: set<nat>)
    returns (out: SyncOutcome)
    ensures out == Sync(models, rows, failing, insertedId, deactivateFails)
  {
    if models.None? || rows.None? {
      return SyncThrew;
    }
    var remote := models.value;
    var existingMap: seq<Field> := [];
    for i := 0 to |rows.value|
      invariant Assign(existingMap, rows.value[i..]) == Assign([], rows.value)
    {
      assert rows.value[i..][1..] == rows.value[i + 1..];
      existingMap := SetField(existingMap, rows.value[i].key, rows.value[i].val);
    }
    assert rows.value[|rows.value|..] == [];
    ghost var registered := existingMap;
    var syncResults: seq<SyncEntry> := [];
    for i := 0 to |remote|
      invariant Pass(syncResults, existingMap) == PassOver(remote, i, registered, failing, insertedId)
    {
      var name := remote[i];
      if i in failing {
        syncResults := syncResults + [SyncEntry(name, Failed, JUndefined)];
      } else if name in Keys(existingMap) {
        syncResults := syncResults + [SyncEntry(name, Updated, Lookup(existingMap, name))];
        existingMap := Remove(existingMap, name);
      } else {
        syncResults := syncResults + [SyncEntry(name, Added, insertedId(i))];
      }
    }
    ghost var passed := syncResults;
    for k := 0 to |existingMap|
      invariant syncResults == passed + Deactivations(existingMap)[..k]
      invariant forall j :: 0 <= j < k ==> j !in deactivateFails
    {
      if k in deactivateFails {
        return SyncThrew;
      }
      syncResults := syncResults + [SyncEntry(existingMap[k].key, Deactivated, existingMap[k].val)];
      assert Deactivations(existingMap)[..k + 1] == Deactivations(existingMap)[..k] + [Deactivations(existingMap)[k]];
    }
    assert Deactivations(existingMap)[..|existingMap|] == Deactivations(existingMap);
    return Synced(syncResults, |remote|);
  }

  /**
   * Every remote model gets exactly one entry, in list order, naming it;
   * the entry is an error exactly when its write failed.
   */
  lemma {:induction false} PassEntries(models: seq<string>, n: nat, registered: seq<Field>, failing: set<nat>,
                                       insertedId: nat -> Json)
    requires n <= |models|
    ensures var r := PassOver(models, n, registered, failing, insertedId).results;
      forall i :: 0 <= i < n ==> r[i].model == models[i] && (r[i].action == Failed <==> i in failing)
  {
    if n > 0 {
      PassEntries(models, n - 1, registered, failing, insertedId);
      var p := PassOver(models, n - 1, registered, failing, insertedId);
      var r := Reconcile(p, n - 1, models[n - 1], failing, insertedId).results;
      assert r == PassOver(models, n, registered, failing, insertedId).results;
      forall i | 0 <= i < n ensures r[i].model == models[i] && (r[i].action == Failed <==> i in failing) {
        if i < n - 1 {
          assert r[i] == r[..n - 1][i] == p.results[i];
        }
      }
    }
  }

  /** A remote model whose write went through. */
  predicate WrittenBefore(models: seq<string>, n: nat, failing: set<nat>, name: string)
    requires n <= |models|
  {
    exists i :: 0 <= i < n && i !in failing && models[i] == name
  }

  /**
   * The names still pending after `n` models are the registered names
   * that no successful write among them has named.
   */
  lemma {:induction false} PassPending(models: seq<string>, n: nat, registered: seq<Field>, failing: set<nat>,
                                       insertedId: nat -> Json)
    requires n <= |models|
    ensures forall k :: k in Keys(PassOver(models, n, registered, failing, insertedId).pending) <==>
      k in Keys(registered) && !WrittenBefore(models, n, failing, k)
  {
    if n > 0 {
      var p := PassOver(models, n - 1, registered, failing, insertedId);
      PassPending(models, n - 1, registered, failing, insertedId);
      KeysRemove(p.pending, models[n - 1]);
      forall k ensures WrittenBefore(models, n, failing, k) <==>
        WrittenBefore(models, n - 1, failing, k) || (n - 1 !in failing && models[n - 1] == k)
      {
        if WrittenBefore(models, n, failing, k) {
          var i :| 0 <= i < n && i !in failing && models[i] == k;
          if i < n - 1 {
            assert WrittenBefore(models, n - 1, failing, k);
          }
        }
      }
    }
  }

  /**
   * With distinct remote names, a model whose write went through is
   * `updated` exactly when its name was registered, and `added` otherwise.
   */
  lemma UpdatedIffRegistered(models: seq<string>, registered: seq<Field>, failing: set<nat>,
                             insertedId: nat -> Json, i: nat)
    requires i < |models|
    requires forall a, b :: 0 <= a < b < |models| ==> models[a] != models[b]
    ensures var r := PassOver(models, |models|, registered, failing, insertedId).results;
      (r[i].action == Updated <==> i !in failing && models[i] in Keys(registered))
      && (r[i].action == Added <==> i !in failing && models[i] !in Keys(registered))
  {
    PassPending(models, i, registered, failing, insertedId);
    assert !WrittenBefore(models, i, failing, models[i]);
    PassPrefix(models, i + 1, |models|, registered, failing, insertedId);
  }

  /** Later models do not change the entries already made. */
  lemma {:induction false} PassPrefix(models: seq<string>, n: nat, m: nat, registered: seq<Field>,
                                      failing: set<nat>, insertedId: nat -> Json)
    requires n <= m <= |models|
    ensures PassOver(models, m, registered, failing, insertedId).results[..n]
         == PassOver(models, n, registered, failing, insertedId).results
    decreases m
  {
    if m > n {
      PassPrefix(models, n, m - 1, registered, failing, insertedId);
      var r := PassOver(models, m, registered, failing, insertedId).results;
      var q := PassOver(models, m - 1, registered, failing, insertedId).results;
      assert r[..m - 1] == q;
      assert r[..n] == q[..n];
    }
  }

  /**
   * A completed sync reports `total` = the number of remote models, one
   * entry per remote model in order, and after them one `deactivated`
   * entry per registered name that no successful write named.
   */
  lemma SyncResult(models: Option<seq<string>>, rows: Option<seq<Field>>, failing: set<nat>,
                   insertedId: nat -> Json, deactivateFails: set<nat>)
    ensures models.None? || rows.None? ==> Sync(models, rows, failing, insertedId, deactivateFails) == SyncThrew
    ensures Sync(models, rows, failing, insertedId, deactivateFails).Synced? ==>
      var out := Sync(models, rows, failing, insertedId, deactivateFails);
      var n := |models.value|;
      out.total == n && n <= |out.results|
      && (forall i :: 0 <= i < n ==>
            out.results[i].model == models.value[i] && (out.results[i].action == Failed <==> i in failing))
      && (forall j :: n <= j < |out.results| ==> out.results[j].action == Deactivated)
      && (forall k :: (exists j :: n <= j < |out.results| && out.results[j].model == k) <==>
            k in Keys(Assign([], rows.value)) && !WrittenBefore(models.value, n, failing, k))
  {
    if models.Some? && rows.Some? {
      var registered := Assign([], rows.value);
      var n := |models.value|;
      var p := PassOver(models.value, n, registered, failing, insertedId);
      PassEntries(models.value, n, registered, failing, insertedId);
      PassPending(models.value, n, registered, failing, insertedId);
      DeactivatedNames(p.results, p.pending);
    }
  }

  /** The entries after the pass name exactly the pending keys, each as `deactivated`. */
  lemma DeactivatedNames(results: seq<SyncEntry>, pending: seq<Field>)
    ensures var out := results + Deactivations(pending);
      (forall j :: |results| <= j < |out| ==> out[j].action == Deactivated)
      && forall k :: (exists j :: |results| <= j < |out| && out[j].model == k) <==> k in Keys(pending)
  {
    var n := |results|;
    var d := Deactivations(pending);
    var out := results + d;
    forall i | 0 <= i < |d|
      ensures d[i].model == Keys(pending)[i] && d[i].action == Deactivated
    {
    }
    forall j | n <= j < |out|
      ensures out[j] == d[j - n]
    {
    }
    forall k ensures (exists j :: n <= j < |out| && out[j].model == k) <==> k in Keys(pending) {
      if k in Keys(pending) {
        var t :| 0 <= t < |pending| && Keys(pending)[t] == k;
        assert out[n + t].model == k;
      }
      if exists j :: n <= j < |out| && out[j].model == k {
        var j :| n <= j < |out| && out[j].model == k;
        assert Keys(pending)[j - n] == k;
      }
    }
  }

  // ---------------------------------------------------------------------
  // pullModel
  // ---------------------------------------------------------------------

  const PullSucceeded: string := "模型拉取成功"
  const PullFinished: string := "模型拉取完成"
  const PullInterrupted: string := "模型拉取中断"
  const PullRequestFailed: string := "拉取模型请求失败"

  /** How the promise `pullModel` returns settles. */
  datatype PullOutcome = Pulled(message: string) | PullRejected(message: string)

  /** One progress report handed to `onProgress`. */
  datatype Progress = Progress(status: Json, completed: Json, total: Json)

  /** The handler's state: the last truthy status, the settled promise, the reports made. */
  datatype PullState = PullState(lastStatus: Json, settled: Option<PullOutcome>, reports: seq<Progress>)

  const PullStart: PullState := PullState(JStr(""), None, [])

  /** A promise settles once; later `resolve`/`reject` calls change nothing. */
  function Settle(st: PullState, o: PullOutcome): PullState
  {
    if st.settled.Some? then st else st.(settled := Some(o))
  }

  /**
   * One line of a chunk. Blank lines, lines that do not parse and parsed
   * `null`s (whose `status` read throws inside the same `try`) change
   * nothing; a truthy status becomes the last status and, with a
   * listener, a report with `completed`/`total` defaulting to 0; a status
   * `"success"` resolves the promise.
   */
  function LineStep(st: PullState, line: string, parse: Parser, onProgress: bool): PullState
  {
    if Trim(line) == "" || parse(line).None? || Nullish(parse(line).value) then st
    else
      var data := parse(line).value;
      var status := Prop(data, "status").value;
      var st1 :=
        if !Truthy(status) then st
        else if onProgress then
          st.(lastStatus := status,
              reports := st.reports + [Progress(status, Or(Prop(data, "completed").value, JNum(0.0)),
                                                Or(Prop(data, "total").value, JNum(0.0)))])
        else st.(lastStatus := status);
      if status == JStr("success") then Settle(st1, Pulled(PullSucceeded)) else st1
  }

  /** The lines handled so far, in order. */
  function FeedLines(st: PullState, lines: seq<string>, parse: Parser, onProgress: bool): PullState
  {
    if |lines| == 0 then st
    else LineStep(FeedLines(st, lines[..|lines| - 1], parse, onProgress), lines[|lines| - 1], parse, onProgress)
  }

  /** The chunks handled so far: each is split on `"\n"` on its own. */
  function FeedChunks(st: PullState, chunks: seq<string>, parse: Parser, onProgress: bool): PullState
  {
    if |chunks| == 0 then st
    else FeedLines(FeedChunks(st, chunks[..|chunks| - 1], parse, onProgress),
                   Split(chunks[|chunks| - 1], '\n'), parse, onProgress)
  }

  /**
   * The whole pull: a failed request throws; otherwise the stream's
   * chunks are handled and the stream ends, or fails with `streamError`.
   */
  function Pull(requestFails: bool, chunks: seq<string>, streamError: bool, parse: Parser, onProgress: bool)
    : (r: (PullOutcome, seq<Progress>))
    ensures requestFails ==> r == (PullRejected(PullRequestFailed), [])
    ensures !onProgress ==> r.1 == []
  {
    if requestFails then (PullRejected(PullRequestFailed), [])
    else
      NoListenerNoChunkReports(PullStart, chunks, parse);
      var st := FeedChunks(PullStart, chunks, parse, onProgress);
      var fin :=
        if streamError then Settle(st, PullRejected(PullInterrupted))
        else Settle(st, Pulled(if st.lastStatus == JStr("success") then PullSucceeded else PullFinished));
      (fin.settled.value, fin.reports)
  }

  /** `pullModel` with its data handler's two loops. */
  method PullModel(requestFails: bool, chunks: seq<string>, streamError: bool, parse: Parser, onProgress: bool)
    returns (outcome: PullOutcome, reports: seq<Progress>)
    ensures (outcome, reports) == Pull(requestFails, chunks, streamError, parse, onProgress)
  {
    if requestFails {
      return PullRejected(PullRequestFailed), [];
    }
    var lastStatus := JStr("");
    var settled: Option<PullOutcome> := None;
    reports := [];
    for c := 0 to |chunks|
      invariant PullState(lastStatus, settled, reports) == FeedChunks(PullStart, chunks[..c], parse, onProgress)
    {
      var lines := Split(chunks[c], '\n');
      ghost var before := PullState(lastStatus, settled, reports);
      for l := 0 to |lines|
        invariant PullState(lastStatus, settled, reports) == FeedLines(before, lines[..l], parse, onProgress)
      {
        var line := lines[l];
        assert lines[..l + 1][..l] == lines[..l];
        if Trim(line) != "" {
          var parsed := parse(line);
          if parsed.Some? && !Nullish(parsed.value) {
            var data := parsed.value;
            var status := Prop(data, "status").value;
            if Truthy(status) {
              lastStatus := status;
              if onProgress {
                reports := reports + [Progress(status, Or(Prop(data, "completed").value, JNum(0.0)),
                                               Or(Prop(data, "total").value, JNum(0.0)))];
              }
            }
            if status == JStr("success") && settled.None? {
              settled := Some(Pulled(PullSucceeded));
            }
          }
        }
      }
      assert lines[..|lines|] == lines;
      assert chunks[..c + 1][..c] == chunks[..c];
    }
    assert chunks[..|chunks|] == chunks;
    if settled.None? {
      if streamError {
        settled := Some(PullRejected(PullInterrupted));
      } else if lastStatus == JStr("success") {
        settled := Some(Pulled(PullSucceeded));
      } else {
        settled := Some(Pulled(PullFinished));
      }
    }
    outcome := settled.value;
  }

  /** A line that resolves the promise: it parses to a value whose `status` is `"success"`. */
  predicate SuccessLine(line: string, parse: Parser)
  {
    Trim(line) != "" && parse(line).Some? && !Nullish(parse(line).value)
    && Prop(parse(line).value, "status") == Some(JStr("success"))
  }

  predicate ChunkHasSuccess(chunk: string, parse: Parser)
  {
    exists i :: 0 <= i < |Split(chunk, '\n')| && SuccessLine(Split(chunk, '\n')[i], parse)
  }

  /** The handler's state keeps these facts: a success status has settled the promise, as a success. */
  predicate PullInvariant(st: PullState)
  {
    (st.settled.Some? ==> st.settled == Some(Pulled(PullSucceeded)))
    && (st.lastStatus == JStr("success") ==> st.settled.Some?)
    && forall k :: 0 <= k < |st.reports| ==>
         Truthy(st.reports[k].status)
         && (Truthy(st.reports[k].completed) || st.reports[k].completed == JNum(0.0))
         && (Truthy(st.reports[k].total) || st.reports[k].total == JNum(0.0))
  }

  /**
   * Handling lines keeps the invariant, and an unsettled promise is
   * settled afterwards exactly when one of the lines was a success line.
   */
  lemma {:induction false} FeedLinesSettles(st: PullState, lines: seq<string>, parse: Parser, onProgress: bool)
    requires PullInvariant(st)
    ensures PullInvariant(FeedLines(st, lines, parse, onProgress))
    ensures FeedLines(st, lines, parse, onProgress).settled.Some? <==>
      st.settled.Some? || exists i :: 0 <= i < |lines| && SuccessLine(lines[i], parse)
  {
    if |lines| > 0 {
      var init := lines[..|lines| - 1];
      FeedLinesSettles(st, init, parse, onProgress);
      LineStepSettles(FeedLines(st, init, parse, onProgress), lines[|lines| - 1], parse, onProgress);
      assert forall i :: 0 <= i < |init| ==> init[i] == lines[i];
    }
  }

  /** One line keeps the invariant and settles an unsettled promise exactly when it is a success line. */
  lemma LineStepSettles(st: PullState, line: string, parse: Parser, onProgress: bool)
    requires PullInvariant(st)
    ensures PullInvariant(LineStep(st, line, parse, onProgress))
    ensures LineStep(st, line, parse, onProgress).settled.Some? <==> st.settled.Some? || SuccessLine(line, parse)
  {
    if !(Trim(line) == "" || parse(line).None? || Nullish(parse(line).value)) {
      var data := parse(line).value;
      var status := Prop(data, "status").value;
      if Truthy(status) && onProgress {
        var st1 := LineStep(st, line, parse, onProgress);
        var k := |st.reports|;
        assert st1.reports[k].status == status;
        assert forall j :: 0 <= j < k ==> st1.reports[j] == st.reports[j];
      }
    }
  }

  lemma {:induction false} FeedChunksSettles(st: PullState, chunks: seq<string>, parse: Parser, onProgress: bool)
    requires PullInvariant(st)
    ensures PullInvariant(FeedChunks(st, chunks, parse, onProgress))
    ensures FeedChunks(st, chunks, parse, onProgress).settled.Some? <==>
      st.settled.Some? || exists c :: 0 <= c < |chunks| && ChunkHasSuccess(chunks[c], parse)
  {
    if |chunks| > 0 {
      var init := chunks[..|chunks| - 1];
      FeedChunksSettles(st, init, parse, onProgress);
      FeedLinesSettles(FeedChunks(st, init, parse, onProgress), Split(chunks[|chunks| - 1], '\n'), parse, onProgress);
      assert forall c :: 0 <= c < |init| ==> init[c] == chunks[c];
    }
  }

  /**
   * A pull whose request went through resolves with "模型拉取成功"
   * exactly when some line reported status `"success"`; without that, an
   * ended stream resolves with "模型拉取完成" and a failed stream
   * rejects. Every report has a truthy status and `completed`/`total`
   * that are truthy or 0.
   */
  lemma PullMessage(chunks: seq<string>, streamError: bool, parse: Parser, onProgress: bool)
    ensures var (outcome, reports) := Pull(false, chunks, streamError, parse, onProgress);
      var success := exists c :: 0 <= c < |chunks| && ChunkHasSuccess(chunks[c], parse);
      (outcome == Pulled(PullSucceeded) <==> success)
      && (!success && !streamError ==> outcome == Pulled(PullFinished))
      && (!success && streamError ==> outcome == PullRejected(PullInterrupted))
      && forall k :: 0 <= k < |reports| ==>
           Truthy(reports[k].status)
           && (Truthy(reports[k].completed) || reports[k].completed == JNum(0.0))
           && (Truthy(reports[k].total) || reports[k].total == JNum(0.0))
  {
    FeedChunksSettles(PullStart, chunks, parse, onProgress);
  }

  /** A line that does not parse is skipped. */
  lemma UnparsableSkipped(st: PullState, line: string, parse: Parser, onProgress: bool)
    requires parse(line).None?
    ensures LineStep(st, line, parse, onProgress) == st
  {
  }

  /** Without a listener no report is made. */
  lemma {:induction false} NoListenerNoReports(st: PullState, lines: seq<string>, parse: Parser)
    ensures FeedLines(st, lines, parse, false).reports == st.reports
  {
    if |lines| > 0 {
      NoListenerNoReports(st, lines[..|lines| - 1], parse);
    }
  }

  /** Without a listener no chunk makes a report. */
  lemma {:induction false} NoListenerNoChunkReports(st: PullState, chunks: seq<string>, parse: Parser)
    ensures FeedChunks(st, chunks, parse, false).reports == st.reports
  {
    if |chunks| > 0 {
      NoListenerNoChunkReports(st, chunks[..|chunks| - 1], parse);
      NoListenerNoReports(FeedChunks(st, chunks[..|chunks| - 1], parse, false), Split(chunks[|chunks| - 1], '\n'), parse);
    }
  }

  // ---------------------------------------------------------------------
  // healthCheck
  // ---------------------------------------------------------------------

  datatype HealthStatus = Healthy | Degraded | Unhealthy

  datatype ModelTest = ModelTest(model: string, working: bool)

  datatype Health = Health(status: HealthStatus, totalModels: nat, modelTests: seq<ModelTest>)

  /**
   * `healthCheck`. `listed` is the service's model list, `None` when the
   * service is unavailable; `defaultModel` is the configured model (`""`
   * when unset); `testPasses` is the outcome of the one test generation.
   */
  method HealthCheck(listed: Option<seq<string>>, defaultModel: string, testPasses: string -> bool)
    returns (h: Health)
    ensures listed.None? <==> h.status == Unhealthy
    ensures listed.None? ==> h.modelTests == []
    ensures listed.Some? ==>
      h.totalModels == |listed.value|
      && |h.modelTests| <= 1
      && (defaultModel != "" ==> h.modelTests == [ModelTest(defaultModel, testPasses(defaultModel))])
      && (defaultModel == "" && |listed.value| > 0 && listed.value[0] != "" ==>
            h.modelTests == [ModelTest(listed.value[0], testPasses(listed.value[0]))])
      && (defaultModel == "" && (|listed.value| == 0 || listed.value[0] == "") ==> h.modelTests == [])
      && (h.status == Healthy <==>
            |listed.value| > 0 || exists t :: t in h.modelTests && t.working)
  {
    if listed.None? {
      return Health(Unhealthy, 0, []);
    }
    var models := listed.value;
    var modelTests: seq<ModelTest> := [];
    var targetModel := if defaultModel != "" then defaultModel else if |models| > 0 then models[0] else "";
    if targetModel != "" {
      var working := testPasses(targetModel);
      modelTests := modelTests + [ModelTest(targetModel, working)];
    }
    var workingModels := |WorkingTests(modelTests)|;
    WorkingCount(modelTests);
    var status := if workingModels > 0 || |models| > 0 then Healthy else Degraded;
    return Health(status, |models|, modelTests);
  }

  /** `modelTests.filter(test => test.working)`. */
  function WorkingTests(tests: seq<ModelTest>): seq<ModelTest>
  {
    if |tests| == 0 then []
    else (if tests[0].working then [tests[0]] else []) + WorkingTests(tests[1..])
  }

  /** Some test is kept by the filter exactly when some test passed. */
  lemma {:induction false} WorkingCount(tests: seq<ModelTest>)
    ensures |WorkingTests(tests)| > 0 <==> exists t :: t in tests && t.working
  {
    if |tests| > 0 {
      WorkingCount(tests[1..]);
      assert forall t :: t in tests[1..] ==> t in tests;
      assert tests[0] in tests;
      if !tests[0].working {
        assert forall t :: t in tests ==> t == tests[0] || t in tests[1..];
      }
    }
  }
}
