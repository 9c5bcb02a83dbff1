/**
 * The administrator's routes: the student list's filter builder, the
 * defaults of a new student, the CSV imports (students, and books, users
 * or borrows through `/import/data`) with their success/failure tally,
 * the borrow-status inference of the borrow import, the borrow update
 * and the import preview. Files, CSV parsing, password hashing and the
 * database are left abstract: an import is modelled from the rows the
 * parser yields and, per row, the error its insert throws (if any).
 */
module AdminRoutes {
  import opened Js
  import opened Text
  import opened Sql

  // ---------------------------------------------------------------------
  // GET /students
  // ---------------------------------------------------------------------

  datatype StudentKind = ReaderMatch | DepartmentIs

  function StudentCondSql(c: Cond<StudentKind>): string
  {
    var p := Placeholder(c.idx);
    match c.kind
    case ReaderMatch => "(r.reader_id ILIKE " + p + " OR COALESCE(l.nickname, '') ILIKE " + p + ")"
    case DepartmentIs => "r.department = " + p
  }

  /** The WHERE clause: empty without conditions, else the conditions joined by AND. */
  function StudentWhere(cs: seq<Cond<StudentKind>>): string
  {
    if |cs| == 0 then "" else "WHERE " + Join(seq(|cs|, i requires 0 <= i < |cs| => StudentCondSql(cs[i])), " AND ")
  }

  /** The student list's filters: search, then department, each when truthy. */
  function StudentFilters(search: Json, department: Json): seq<Filter<StudentKind>>
  {
    Opt(Truthy(search), Filter(ReaderMatch, LikeOf(search)))
    + Opt(Truthy(department), Filter(DepartmentIs, PValue(department)))
  }

  /**
   * The filters are exactly the truthy ones, search before department,
   * and the WHERE clause is empty exactly when there is none.
   */
  lemma StudentFiltersShape(search: Json, department: Json)
    ensures var fs := StudentFilters(search, department);
      |fs| == (if Truthy(search) then 1 else 0) + (if Truthy(department) then 1 else 0)
      && (Truthy(search) ==> fs[0] == Filter(ReaderMatch, LikeOf(search)))
      && (Truthy(department) ==> fs[|fs| - 1] == Filter(DepartmentIs, PValue(department)))
      && (StudentWhere(Numbered(fs, 1)) == "" <==> !Truthy(search) && !Truthy(department))
  {
    var fs := StudentFilters(search, department);
    if |fs| > 0 {
      assert StudentWhere(Numbered(fs, 1))[..6] == "WHERE ";
    }
  }

  /** The student list's statement: its conditions, WHERE text and both parameter lists. */
  datatype StudentQuery = StudentQuery(conditions: seq<Cond<StudentKind>>, where: string, countParams: seq<Param>,
                                       limitIdx: nat, offsetIdx: nat, args: seq<Param>)

  /**
   * GET `/students` as a value: `page` and `limit` are the query values
   * as numbers and `limitInt` is `parseInt(limit)`.
   */
  function StudentQueryFor(search: Json, department: Json, page: Option<int>, limit: Option<int>,
                           limitInt: Option<int>): StudentQuery
  {
    var fs := StudentFilters(search, department);
    var cs := Numbered(fs, 1);
    StudentQuery(cs, StudentWhere(cs), Values(fs), |fs| + 1, |fs| + 2,
                 Values(fs) + [NumOrNaN(limitInt), OffsetParam(page, limit)])
  }

  /** The `if (search) ... if (department) ...` part: the conditions and their values. */
  method StudentConditions(search: Json, department: Json)
    returns (conds: seq<Cond<StudentKind>>, params: seq<Param>, paramCount: nat)
    ensures var fs := StudentFilters(search, department);
      conds == Numbered(fs, 1) && params == Values(fs) && paramCount == |fs|
  {
    var g1, g2 := Filter(ReaderMatch, LikeOf(search)), Filter(DepartmentIs, PValue(department));
    ghost var none: seq<Param> := [];
    ghost var f1 := Opt(Truthy(search), g1);
    assert [] + f1 == f1;
    assert StudentFilters(search, department) == f1 + Opt(Truthy(department), g2);
    conds, params, paramCount := AddFilter(Truthy(search), g1, [], [], 0, none, []);
    conds, params, paramCount := AddFilter(Truthy(department), g2, conds, params, paramCount, none, f1);
    assert none + Values(f1 + Opt(Truthy(department), g2)) == params;
  }

  /** GET `/students`: the statements it sends. */
  method ListStudents(search: Json, department: Json, page: Option<int>, limit: Option<int>, limitInt: Option<int>)
    returns (q: StudentQuery)
    ensures q == StudentQueryFor(search, department, page, limit, limitInt)
  {
    var conds, params, paramCount := StudentConditions(search, department);
    var whereClause := StudentWhere(conds);
    var queryArgs := params + [NumOrNaN(limitInt), OffsetParam(page, limit)];
    q := StudentQuery(conds, whereClause, params, paramCount + 1, paramCount + 2, queryArgs);
  }

  /**
   * The k-th condition's `$k` names the k-th filter's value in both
   * statements; LIMIT and OFFSET, numbered after the filters, name the
   * limit and the offset.
   */
  lemma StudentPlaceholders(search: Json, department: Json, page: Option<int>, limit: Option<int>,
                            limitInt: Option<int>)
    ensures var q := StudentQueryFor(search, department, page, limit, limitInt);
      var fs := StudentFilters(search, department);
      |q.conditions| == |fs|
      && (forall k :: 0 <= k < |fs| ==>
            q.conditions[k].idx == k + 1 && Refers(k + 1, q.countParams) && Refers(k + 1, q.args)
            && q.countParams[k] == fs[k].value && q.args[k] == fs[k].value)
      && Refers(q.limitIdx, q.args) && q.args[q.limitIdx - 1] == NumOrNaN(limitInt)
      && Refers(q.offsetIdx, q.args) && q.args[q.offsetIdx - 1] == OffsetParam(page, limit)
  {
    var fs := StudentFilters(search, department);
    PagedPlaceholders(fs, NumOrNaN(limitInt), OffsetParam(page, limit));
  }

  // ---------------------------------------------------------------------
  // POST /students
  // ---------------------------------------------------------------------

  /**
   * A new student's rows: the reader row's values, the nickname stored
   * with the login, and the text whose hash becomes the password.
   */
  datatype NewStudent = NewStudent(readerValues: seq<Json>, nickname: Json, password: Json)

  /** `if (!nickname) nickname = reader_id; if (!password) password = reader_id;` and the two inserts. */
  function NewStudentOf(body: seq<Field>): (r: NewStudent)
    ensures |r.readerValues| == 5 && r.readerValues[0] == Lookup(body, "reader_id")
    ensures Truthy(Lookup(body, "nickname")) ==> r.nickname == Lookup(body, "nickname")
    ensures !Truthy(Lookup(body, "nickname")) ==> r.nickname == Lookup(body, "reader_id")
    ensures Truthy(Lookup(body, "password")) ==> r.password == Lookup(body, "password")
    ensures !Truthy(Lookup(body, "password")) ==> r.password == Lookup(body, "reader_id")
  {
    var readerId := Lookup(body, "reader_id");
    NewStudent([readerId, Lookup(body, "gender"), Lookup(body, "enroll_year"), Lookup(body, "reader_type"),
                Lookup(body, "department")],
               Or(Lookup(body, "nickname"), readerId), Or(Lookup(body, "password"), readerId))
  }

  // ---------------------------------------------------------------------
  // The import tally
  // ---------------------------------------------------------------------

  /** One entry of `errors`: the row's number and its error's message. */
  datatype RowError = RowError(row: nat, message: string)

  /** The counters and errors after a run of rows. */
  datatype Tally = Tally(success: nat, fail: nat, errors: seq<RowError>)

  /**
   * The tally after the given row outcomes (`None` a row that went in,
   * `Some(m)` one whose processing threw `m`): each row increments one
   * counter, and a failed row records `success + fail` after the increment.
   */
  function TallyOf(outcomes: seq<Option<string>>): (t: Tally)
    ensures t.success + t.fail == |outcomes|
    ensures |t.errors| == t.fail
  {
    if |outcomes| == 0 then Tally(0, 0, [])
    else
      var t := TallyOf(outcomes[..|outcomes| - 1]);
      match outcomes[|outcomes| - 1]
      case None => Tally(t.success + 1, t.fail, t.errors)
      case Some(m) => Tally(t.success, t.fail + 1, t.errors + [RowError(t.success + t.fail + 1, m)])
  }

  /** The failed rows of a file in file order, each with its 1-based position. */
  function FailedRows(outcomes: seq<Option<string>>): (r: seq<RowError>)
  {
    if |outcomes| == 0 then []
    else
      var n := |outcomes|;
      FailedRows(outcomes[..n - 1]) + (if outcomes[n - 1].Some? then [RowError(n, outcomes[n - 1].value)] else [])
  }

  /** How many rows failed. */
  function Failures(outcomes: seq<Option<string>>): nat
  {
    if |outcomes| == 0 then 0
    else Failures(outcomes[..|outcomes| - 1]) + (if outcomes[|outcomes| - 1].Some? then 1 else 0)
  }

  /**
   * The counters count: `fail` is the number of failed rows, `success`
   * the number of the others, and the error list names exactly the failed
   * rows, in file order, each by its position in the file.
   */
  lemma {:induction false} TallyCounts(outcomes: seq<Option<string>>)
    ensures var t := TallyOf(outcomes);
      t.fail == Failures(outcomes) && t.success == |outcomes| - Failures(outcomes)
      && t.errors == FailedRows(outcomes)
    decreases |outcomes|
  {
    if |outcomes| > 0 {
      TallyCounts(outcomes[..|outcomes| - 1]);
    }
  }

  /** Each error names a failed row by its 1-based position and carries its message, in increasing row order. */
  predicate NamesFailedRows(outcomes: seq<Option<string>>, r: seq<RowError>)
  {
    (forall j :: 0 <= j < |r| ==> 1 <= r[j].row <= |outcomes| && outcomes[r[j].row - 1] == Some(r[j].message))
    && (forall i, j :: 0 <= i < j < |r| ==> r[i].row < r[j].row)
  }

  /** Every failed row's error names its position, and the positions increase. */
  lemma {:induction false} FailedRowsPositions(outcomes: seq<Option<string>>)
    ensures NamesFailedRows(outcomes, FailedRows(outcomes))
    decreases |outcomes|
  {
    if |outcomes| > 0 {
      var n := |outcomes|;
      var prev := outcomes[..n - 1];
      FailedRowsPositions(prev);
      var r := FailedRows(outcomes);
      var q := FailedRows(prev);
      var last := if outcomes[n - 1].Some? then [RowError(n, outcomes[n - 1].value)] else [];
      assert r == q + last;
      forall j | 0 <= j < |r| ensures 1 <= r[j].row <= n && outcomes[r[j].row - 1] == Some(r[j].message) {
        if j < |q| {
          assert r[j] == q[j];
          assert prev[q[j].row - 1] == outcomes[q[j].row - 1];
        }
      }
      forall i, j | 0 <= i < j < |r| ensures r[i].row < r[j].row {
        assert r[i] == q[i];
        if j < |q| {
          assert r[j] == q[j];
        } else {
          assert r[j].row == n;
        }
      }
    }
  }

  /** `failCount === 0 ? "success" : successCount === 0 ? "failed" : "partial"`. */
  function ImportStatus(t: Tally): (s: string)
  {
    if t.fail == 0 then "success" else if t.success == 0 then "failed" else "partial"
  }

  /**
   * An import is "success" exactly when no row failed, "failed" exactly
   * when rows failed and none went in, "partial" exactly when both
   * happened.
   */
  lemma ImportStatusCases(outcomes: seq<Option<string>>)
    ensures var t := TallyOf(outcomes);
      (ImportStatus(t) == "success" <==> Failures(outcomes) == 0)
      && (ImportStatus(t) == "failed" <==> Failures(outcomes) > 0 && Failures(outcomes) == |outcomes|)
      && (ImportStatus(t) == "partial" <==> 0 < Failures(outcomes) < |outcomes|)
  {
    TallyCounts(outcomes);
  }

  /** The first failed row, if any. */
  function FirstFailure(outcomes: seq<Option<string>>): (r: Option<nat>)
    ensures r.Some? ==> r.value < |outcomes| && outcomes[r.value].Some?
                        && forall i :: 0 <= i < r.value ==> outcomes[i].None?
    ensures r.None? ==> forall i :: 0 <= i < |outcomes| ==> outcomes[i].None?
  {
    if |outcomes| == 0 then None
    else if outcomes[0].Some? then Some(0)
    else
      var r := FirstFailure(outcomes[1..]);
      if r.Some? then Some(r.value + 1) else None
  }

  /** A run of the import loop: thrown out by a row, or to the end. */
  datatype Run = Aborted(message: string) | Completed(tally: Tally)

  /**
   * The loop of `/import/data`: without `skip_errors` the first failed
   * row rethrows its error, which rolls the transaction back; with it,
   * every row is tallied.
   */
  function RunOf(outcomes: seq<Option<string>>, skipErrors: bool): Run
  {
    var first := FirstFailure(outcomes);
    if !skipErrors && first.Some? then Aborted(outcomes[first.value].value) else Completed(TallyOf(outcomes))
  }

  /** `for (const row of rows) { try { ... successCount++ } catch { failCount++; errors.push(...); ... } }`. */
  method ImportLoop(outcomes: seq<Option<string>>, skipErrors: bool) returns (run: Run)
    ensures run == RunOf(outcomes, skipErrors)
  {
    var successCount := 0;
    var failCount := 0;
    var errors: seq<RowError> := [];
    for i := 0 to |outcomes|
      invariant Tally(successCount, failCount, errors) == TallyOf(outcomes[..i])
      invariant !skipErrors ==> forall j :: 0 <= j < i ==> outcomes[j].None?
    {
      assert outcomes[..i + 1][..i] == outcomes[..i];
      match outcomes[i]
      case None =>
        successCount := successCount + 1;
      case Some(message) =>
        failCount := failCount + 1;
        errors := errors + [RowError(successCount + failCount, message)];
        if !skipErrors {
          return Aborted(message);
        }
    }
    assert outcomes[..|outcomes|] == outcomes;
    return Completed(Tally(successCount, failCount, errors));
  }

  /**
   * Without `skip_errors` an import either has no failed row or is
   * aborted with the first failed row's error; with it, it always
   * completes.
   */
  lemma AbortWithoutSkip(outcomes: seq<Option<string>>, skipErrors: bool)
    ensures skipErrors ==> RunOf(outcomes, skipErrors).Completed?
    ensures !skipErrors && (exists i :: 0 <= i < |outcomes| && outcomes[i].Some?) ==>
      exists i :: 0 <= i < |outcomes| && outcomes[i].Some?
        && (forall j :: 0 <= j < i ==> outcomes[j].None?)
        && RunOf(outcomes, skipErrors) == Aborted(outcomes[i].value)
    ensures RunOf(outcomes, skipErrors).Completed? && !skipErrors ==> Failures(outcomes) == 0
  {
    TallyCounts(outcomes);
    if RunOf(outcomes, skipErrors).Completed? && !skipErrors {
      NoFailures(outcomes);
    }
  }

  lemma {:induction false} NoFailures(outcomes: seq<Option<string>>)
    requires forall i :: 0 <= i < |outcomes| ==> outcomes[i].None?
    ensures Failures(outcomes) == 0
    decreases |outcomes|
  {
    if |outcomes| > 0 {
      NoFailures(outcomes[..|outcomes| - 1]);
    }
  }

  /** `导入完成：成功 s 条，失败 f 条`. */
  function DoneMessage(t: Tally): string
  {
    "导入完成：成功 " + NatToString(t.success) + " 条，失败 " + NatToString(t.fail) + " 条"
  }

  // ---------------------------------------------------------------------
  // Row outcomes
  // ---------------------------------------------------------------------

  /**
   * What inserting row `i` throws, if anything: the database's answer,
   * which is not part of this model.
   */
  type InsertErrors = nat -> Option<string>

  const MissingReaderId: string := "缺少 reader_id 字段"
  const MissingFields: string := "缺少必填字段"

  /** A books row fails only when its insert throws. */
  function BookOutcomes(rows: seq<seq<Field>>, insertError: InsertErrors): (r: seq<Option<string>>)
    ensures |r| == |rows|
  {
    seq(|rows|, i requires 0 <= i < |rows| => insertError(i))
  }

  /** A users (or students) row fails without a reader_id, else when its inserts throw. */
  function UserOutcomes(rows: seq<seq<Field>>, insertError: InsertErrors): (r: seq<Option<string>>)
    ensures |r| == |rows|
    ensures forall i :: 0 <= i < |rows| && !Truthy(Lookup(rows[i], "reader_id")) ==> r[i] == Some(MissingReaderId)
  {
    seq(|rows|, i requires 0 <= i < |rows| =>
      if !Truthy(Lookup(rows[i], "reader_id")) then Some(MissingReaderId) else insertError(i))
  }

  /** The fields a borrow row cannot do without. */
  predicate HasBorrowKeys(row: seq<Field>)
  {
    Truthy(Lookup(row, "borrow_id")) && Truthy(Lookup(row, "reader_id")) && Truthy(Lookup(row, "book_id"))
  }

  /** A borrows row fails without borrow_id, reader_id or book_id, else when its insert throws. */
  function BorrowOutcomes(rows: seq<seq<Field>>, insertError: InsertErrors): (r: seq<Option<string>>)
    ensures |r| == |rows|
    ensures forall i :: 0 <= i < |rows| && !HasBorrowKeys(rows[i]) ==> r[i] == Some(MissingFields)
  {
    seq(|rows|, i requires 0 <= i < |rows| =>
      if !HasBorrowKeys(rows[i]) then Some(MissingFields) else insertError(i))
  }

  // ---------------------------------------------------------------------
  // Borrow status inference and the borrow insert
  // ---------------------------------------------------------------------

  /** The canonical statuses; `toCanonical` maps a stored or typed status to one of them or to a falsy value. */
  const Borrowed: Json := JStr("borrowed")
  const Returned: Json := JStr("returned")
  const Overdue: Json := JStr("overdue")

  /**
   * The status a borrow row is imported with: its own when it
   * canonicalises, else returned when it has a return date, else overdue
   * when its due date is past (`isPast` stands for the comparison with
   * the current time), else borrowed.
   */
  function InferStatus(row: seq<Field>, toCanonical: Json -> Json, isPast: Json -> bool): Json
  {
    var canonical := toCanonical(Lookup(row, "status"));
    if Truthy(canonical) then canonical
    else if Truthy(Lookup(row, "return_date")) then Returned
    else if Truthy(Lookup(row, "due_date")) && isPast(Lookup(row, "due_date")) then Overdue
    else Borrowed
  }

  /**
   * The inference's order: a recognised status wins; otherwise a return
   * date means returned whatever the due date, a past due date means
   * overdue, and anything else borrowed.
   */
  lemma InferStatusOrder(row: seq<Field>, toCanonical: Json -> Json, isPast: Json -> bool)
    ensures var s := InferStatus(row, toCanonical, isPast);
      var canonical := toCanonical(Lookup(row, "status"));
      (Truthy(canonical) ==> s == canonical)
      && (!Truthy(canonical) && Truthy(Lookup(row, "return_date")) ==> s == Returned)
      && (!Truthy(canonical) && !Truthy(Lookup(row, "return_date")) ==>
            (s == Overdue <==> Truthy(Lookup(row, "due_date")) && isPast(Lookup(row, "due_date"))))
      && (!Truthy(canonical) ==> s == Returned || s == Overdue || s == Borrowed)
  {
  }

  /**
   * The seven values of a borrow insert: the ids, the dates or null, and
   * the stored form of the status (`toZh`'s when it has one).
   */
  function BorrowInsertValues(row: seq<Field>, toCanonical: Json -> Json, toZh: Json -> Json,
                              isPast: Json -> bool): (r: seq<Json>)
    ensures |r| == 7
    ensures r[0] == Lookup(row, "borrow_id") && r[1] == Lookup(row, "reader_id") && r[2] == Lookup(row, "book_id")
    ensures r[6] == Or(toZh(InferStatus(row, toCanonical, isPast)), InferStatus(row, toCanonical, isPast))
  {
    var canonical := InferStatus(row, toCanonical, isPast);
    [Lookup(row, "borrow_id"), Lookup(row, "reader_id"), Lookup(row, "book_id"),
     Or(Lookup(row, "borrow_date"), JNull), Or(Lookup(row, "due_date"), JNull), Or(Lookup(row, "return_date"), JNull),
     Or(toZh(canonical), canonical)]
  }

  // ---------------------------------------------------------------------
  // POST /import/data and POST /students/import
  // ---------------------------------------------------------------------

  /** The `import_history` row a completed import writes. */
  datatype HistoryRecord = HistoryRecord(kind: string, filename: Json, status: string, total: nat, success: nat,
                                         failed: nat, errors: seq<RowError>)

  /**
   * The response of `/import/data`, with the history row written, if any.
   * `BadConfig` is the 500 answered when `JSON.parse` of the `config`
   * field throws.
   */
  datatype ImportResponse =
    | NoFile
    | BadConfig
    | ImportFailed(message: string)
    | Imported(message: string, total: nat, success: nat, failed: nat, history: Option<HistoryRecord>)

  /** The outcomes of an import of the given type; `None` for a type that is not imported. */
  function OutcomesFor(kind: Json, rows: seq<seq<Field>>, insertError: InsertErrors): Option<seq<Option<string>>>
  {
    if kind == JStr("books") then Some(BookOutcomes(rows, insertError))
    else if kind == JStr("users") then Some(UserOutcomes(rows, insertError))
    else if kind == JStr("borrows") then Some(BorrowOutcomes(rows, insertError))
    else None
  }

  /**
   * `importConfig = config ? JSON.parse(config) : {}`: an absent config is
   * the empty object; `None` when the parse throws.
   */
  function ImportConfig(config: string, parse: string -> Option<Json>): (r: Option<Json>)
    ensures config == "" ==> r == Some(JObj([]))
    ensures config != "" ==> r == parse(config)
  {
    if config == "" then Some(JObj([])) else parse(config)
  }

  /**
   * `importConfig.skip_errors`, read in a row's `catch`: `None` is the
   * TypeError of reading it off `null` or `undefined`; any other value
   * skips errors exactly when its `skip_errors` is truthy.
   */
  function SkipErrors(cfg: Json): (r: Option<bool>)
    ensures r.None? <==> Nullish(cfg)
    ensures cfg.JObj? ==> r == Some(Truthy(Lookup(cfg.fields, "skip_errors")))
    ensures !Nullish(cfg) && !cfg.JObj? && !cfg.JArr? && !cfg.JStr? ==> r == Some(false)
  {
    match Prop(cfg, "skip_errors")
    case None => None
    case Some(x) => Some(Truthy(x))
  }

  /**
   * POST `/import/data` as a value. `config` is the form field (`""` when
   * absent) and `parse` is `JSON.parse`; `historyError` is the error the
   * `import_history` INSERT or the COMMIT throws, if either does, and
   * `nullConfigError` the TypeError text of a property read on a config
   * that parsed to `null`. Such a config is only read inside the row
   * loop, so it fails an import with rows and nothing else.
   */
  function ImportDataFor(hasFile: bool, kind: Json, filename: Json, config: string, parse: string -> Option<Json>,
                         rows: seq<seq<Field>>, insertError: InsertErrors, historyError: Option<string>,
                         nullConfigError: string): ImportResponse
  {
    if !hasFile then NoFile
    else
      match ImportConfig(config, parse)
      case None => BadConfig
      case Some(cfg) =>
        match OutcomesFor(kind, rows, insertError)
        case None => Imported(JsString(kind) + " 类型导入暂未实现", 0, 0, 0, None)
        case Some(outcomes) =>
          match SkipErrors(cfg)
          case None =>
            if |outcomes| == 0 then Finished(kind, filename, RunOf(outcomes, false), historyError)
            else ImportFailed("导入失败: " + nullConfigError)
          case Some(skipErrors) => Finished(kind, filename, RunOf(outcomes, skipErrors), historyError)
  }

  /**
   * The answer after the loop: an aborted run is a 500 with the row's
   * error, and so is a completed one whose history INSERT or COMMIT
   * throws; otherwise the history row is written and the counts reported.
   */
  function Finished(kind: Json, filename: Json, run: Run, historyError: Option<string>): ImportResponse
  {
    match run
    case Aborted(m) => ImportFailed("导入失败: " + m)
    case Completed(t) =>
      if historyError.Some? then ImportFailed("导入失败: " + historyError.value)
      else
        Imported(DoneMessage(t), t.success + t.fail, t.success, t.fail,
                 Some(HistoryRecord(JsString(kind), filename, ImportStatus(t), t.success + t.fail, t.success,
                                    t.fail, t.errors)))
  }

  /** POST `/import/data`. */
  method ImportData(hasFile: bool, kind: Json, filename: Json, config: string, parse: string -> Option<Json>,
                    rows: seq<seq<Field>>, insertError: InsertErrors, historyError: Option<string>,
                    nullConfigError: string)
    returns (resp: ImportResponse)
    ensures resp == ImportDataFor(hasFile, kind, filename, config, parse, rows, insertError, historyError, nullConfigError)
  {
    if !hasFile {
      return NoFile;
    }
    var cfg := ImportConfig(config, parse);
    if cfg.None? {
      return BadConfig;
    }
    var outcomes := OutcomesFor(kind, rows, insertError);
    if outcomes.None? {
      return Imported(JsString(kind) + " 类型导入暂未实现", 0, 0, 0, None);
    }
    var skipErrors := SkipErrors(cfg.value);
    if skipErrors.None? {
      if |outcomes.value| > 0 {
        // the first row's read of the config throws, and its catch rethrows
        return ImportFailed("导入失败: " + nullConfigError);
      }
      resp := RunImport(kind, filename, outcomes.value, false, historyError);
    } else {
      resp := RunImport(kind, filename, outcomes.value, skipErrors.value, historyError);
    }
  }

  /** The loop over the rows, then the history row, the COMMIT and the answer. */
  method RunImport(kind: Json, filename: Json, outcomes: seq<Option<string>>, skipErrors: bool,
                   historyError: Option<string>)
    returns (resp: ImportResponse)
    ensures resp == Finished(kind, filename, RunOf(outcomes, skipErrors), historyError)
  {
    var run := ImportLoop(outcomes, skipErrors);
    match run
    case Aborted(m) =>
      resp := ImportFailed("导入失败: " + m);
    case Completed(t) =>
      var status := ImportStatus(t);
      var history := HistoryRecord(JsString(kind), filename, status, t.success + t.fail, t.success, t.fail, t.errors);
      if historyError.Some? {
        // the INSERT or the COMMIT threw: ROLLBACK and a 500
        return ImportFailed("导入失败: " + historyError.value);
      }
      resp := Imported(DoneMessage(t), t.success + t.fail, t.success, t.fail, Some(history));
  }

  /**
   * An import that completes writes exactly one history row, whose counts
   * are the response's and whose status classifies them, and only when
   * the history write did not throw; an unknown type reports success with
   * zero counts whatever the parsed config; the config 500 is exactly a
   * config that does not parse; a config that parsed to `null` fails an
   * import with rows and lets an empty one complete; any other 500 comes
   * from a row error without skip_errors or from the history write.
   */
  lemma ImportHistory(hasFile: bool, kind: Json, filename: Json, config: string, parse: string -> Option<Json>,
                      rows: seq<seq<Field>>, insertError: InsertErrors, historyError: Option<string>,
                      nullConfigError: string)
    ensures var r := ImportDataFor(hasFile, kind, filename, config, parse, rows, insertError, historyError, nullConfigError);
      var cfg := ImportConfig(config, parse);
      (r.Imported? && r.history.Some? ==>
         r.history.value.total == r.total == r.success + r.failed == |rows|
         && r.history.value.success == r.success && r.history.value.failed == r.failed
         && r.history.value.status == (if r.failed == 0 then "success" else if r.success == 0 then "failed" else "partial")
         && historyError.None?)
      && (hasFile && cfg.Some? && OutcomesFor(kind, rows, insertError).None? ==>
            r == Imported(JsString(kind) + " 类型导入暂未实现", 0, 0, 0, None))
      && (r.BadConfig? <==> hasFile && config != "" && parse(config).None?)
      && (hasFile && cfg.Some? && Nullish(cfg.value) && OutcomesFor(kind, rows, insertError).Some? ==>
            (|rows| > 0 ==> r == ImportFailed("导入失败: " + nullConfigError))
            && (|rows| == 0 && historyError.None? ==> r.Imported? && r.total == 0 && r.history.Some?))
      && (r.ImportFailed? ==>
            hasFile && cfg.Some? && (SkipErrors(cfg.value) != Some(true) || historyError.Some?))
  {
    var r := ImportDataFor(hasFile, kind, filename, config, parse, rows, insertError, historyError, nullConfigError);
    var o := OutcomesFor(kind, rows, insertError);
    var cfg := ImportConfig(config, parse);
    if !hasFile {
      assert r == NoFile;
    } else if cfg.None? {
      assert r == BadConfig;
    } else if o.None? {
      assert r == Imported(JsString(kind) + " 类型导入暂未实现", 0, 0, 0, None);
    } else {
      assert |o.value| == |rows|;
      var skip := SkipErrors(cfg.value);
      if skip.Some? {
        assert r == Finished(kind, filename, RunOf(o.value, skip.value), historyError);
        FinishedReports(kind, filename, o.value, skip.value, historyError);
      } else if |rows| == 0 {
        assert r == Finished(kind, filename, RunOf(o.value, false), historyError);
        FinishedReports(kind, filename, o.value, false, historyError);
      } else {
        assert r == ImportFailed("导入失败: " + nullConfigError);
      }
    }
  }

  /** The answer after a run of the given outcomes: the history agrees with the counts, and a 500 has a cause. */
  lemma FinishedReports(kind: Json, filename: Json, outcomes: seq<Option<string>>, skipErrors: bool,
                        historyError: Option<string>)
    ensures var r := Finished(kind, filename, RunOf(outcomes, skipErrors), historyError);
      (r.Imported? ==>
         r.history.Some? && historyError.None?
         && r.history.value.total == r.total == r.success + r.failed == |outcomes|
         && r.history.value.success == r.success && r.history.value.failed == r.failed
         && r.history.value.status == (if r.failed == 0 then "success" else if r.success == 0 then "failed" else "partial"))
      && (r.ImportFailed? ==> !skipErrors || historyError.Some?)
      && (r.Imported? || r.ImportFailed?)
  {
  }

  /**
   * The response of `/students/import`: the counts and the errors, and no
   * history row; or the 500 when the transaction's BEGIN or COMMIT throws.
   */
  datatype StudentsImport =
    | StudentsImported(message: string, total: nat, success: nat, failed: nat, errors: seq<RowError>)
    | StudentsFailed(message: string)

  /**
   * POST `/students/import`: every row is tallied, whatever fails, since
   * each row catches its own error. `transactionError` is the error the
   * BEGIN or the COMMIT throws, if either does.
   */
  method ImportStudents(rows: seq<seq<Field>>, insertError: InsertErrors, transactionError: Option<string>)
    returns (resp: StudentsImport)
    ensures resp.StudentsFailed? <==> transactionError.Some?
    ensures transactionError.Some? ==> resp == StudentsFailed("导入学生时出错: " + transactionError.value)
    ensures var t := TallyOf(UserOutcomes(rows, insertError));
      transactionError.None? ==>
        resp == StudentsImported(DoneMessage(t), t.success + t.fail, t.success, t.fail, t.errors)
  {
    var run := ImportLoop(UserOutcomes(rows, insertError), true);
    if transactionError.Some? {
      // ROLLBACK and a 500
      return StudentsFailed("导入学生时出错: " + transactionError.value);
    }
    var t := run.tally;
    resp := StudentsImported(DoneMessage(t), t.success + t.fail, t.success, t.fail, t.errors);
  }

  // ---------------------------------------------------------------------
  // POST /import/preview
  // ---------------------------------------------------------------------

  const PreviewSize: nat := 10

  /** The `data` handler: a row is kept while fewer than ten are. */
  method Preview(rows: seq<seq<Field>>) returns (preview: seq<seq<Field>>)
    ensures |rows| <= PreviewSize ==> preview == rows
    ensures |rows| > PreviewSize ==> preview == rows[..PreviewSize]
  {
    preview := [];
    for i := 0 to |rows|
      invariant preview == rows[..if i <= PreviewSize then i else PreviewSize]
    {
      if |preview| < PreviewSize {
        preview := preview + [rows[i]];
      }
    }
    assert rows[..|rows|] == rows;
  }

  // ---------------------------------------------------------------------
  // PUT /borrows/:id
  // ---------------------------------------------------------------------

  /**
   * The statuses a borrow can be set to (the `!canonical` half of the
   * source's test is implied: all three are non-empty strings).
   */
  predicate ValidStatus(canonical: Json)
  {
    canonical == Borrowed || canonical == Returned || canonical == Overdue
  }

  /** The answer to a borrow update: 400, 404, or the update statement sent. */
  datatype BorrowUpdate = InvalidStatus | NoBorrow | Update(text: string, params: seq<Param>)

  /** PUT `/borrows/:id` as a value; `found` is whether the SELECT found the record. */
  function BorrowUpdateFor(borrowId: Json, status: Json, returnDate: Json, found: bool,
                           toCanonical: Json -> Json, toZh: Json -> Json): BorrowUpdate
  {
    var canonical := toCanonical(status);
    if !ValidStatus(canonical) then InvalidStatus
    else if !found then NoBorrow
    else UpdateOf(borrowId, Or(toZh(canonical), canonical), SetsReturnDate(status, returnDate), returnDate)
  }

  /** The accepted update: the stored status, the return date when it is set, the id last. */
  function UpdateOf(borrowId: Json, stored: Json, setReturn: bool, returnDate: Json): BorrowUpdate
  {
    var params := [PValue(stored)] + (if setReturn then [PValue(returnDate)] else []);
    Update(UpdateText(setReturn, |params| + 1), params + [PValue(borrowId)])
  }

  /** `status === 'returned' && return_date`: the typed status itself, not its canonical form. */
  predicate SetsReturnDate(status: Json, returnDate: Json)
  {
    status == JStr("returned") && Truthy(returnDate)
  }

  /** The update statement, with the return date's assignment when it is set and the id's placeholder. */
  function UpdateText(setReturn: bool, idIndex: nat): string
  {
    "UPDATE borrow_records SET status = $1" + (if setReturn then ", return_date = $2" else "")
    + " WHERE borrow_id = $" + NatToString(idIndex) + " RETURNING *"
  }

  /** PUT `/borrows/:id`. */
  method UpdateBorrow(borrowId: Json, status: Json, returnDate: Json, found: bool,
                      toCanonical: Json -> Json, toZh: Json -> Json)
    returns (r: BorrowUpdate)
    ensures r == BorrowUpdateFor(borrowId, status, returnDate, found, toCanonical, toZh)
  {
    var canonical := toCanonical(status);
    if !ValidStatus(canonical) {
      r := InvalidStatus;
    } else if !found {
      r := NoBorrow;
    } else {
      var stored := Or(toZh(canonical), canonical);
      var setReturn := SetsReturnDate(status, returnDate);
      r := UpdateStatement(borrowId, stored, setReturn, returnDate);
      assert BorrowUpdateFor(borrowId, status, returnDate, found, toCanonical, toZh)
          == UpdateOf(borrowId, stored, setReturn, returnDate);
    }
  }

  /** The statement of an accepted update, built clause by clause. */
  method UpdateStatement(borrowId: Json, stored: Json, setReturn: bool, returnDate: Json) returns (r: BorrowUpdate)
    ensures r == UpdateOf(borrowId, stored, setReturn, returnDate)
  {
    var queryParams := [PValue(stored)];
    if setReturn {
      queryParams := queryParams + [PValue(returnDate)];
    }
    var updateQuery := UpdateText(setReturn, |queryParams| + 1);
    queryParams := queryParams + [PValue(borrowId)];
    r := Update(updateQuery, queryParams);
  }

  /**
   * A status that does not canonicalise to one of the three is refused
   * whether or not the record exists; an accepted update binds the
   * status first, the return date second exactly when the typed status
   * is literally "returned" and a return date is given, and the record's
   * id last, under the placeholder equal to the parameter count.
   */
  lemma BorrowUpdateShape(borrowId: Json, status: Json, returnDate: Json, found: bool,
                          toCanonical: Json -> Json, toZh: Json -> Json)
    ensures var r := BorrowUpdateFor(borrowId, status, returnDate, found, toCanonical, toZh);
      (r.InvalidStatus? <==> !ValidStatus(toCanonical(status)))
      && (r.NoBorrow? <==> ValidStatus(toCanonical(status)) && !found)
      && (r.Update? ==>
            var setReturn := SetsReturnDate(status, returnDate);
            |r.params| == (if setReturn then 3 else 2)
            && r.params[0] == PValue(Or(toZh(toCanonical(status)), toCanonical(status)))
            && (setReturn ==> r.params[1] == PValue(returnDate))
            && r.params[|r.params| - 1] == PValue(borrowId)
            && Refers(|r.params|, r.params))
  {
  }

  /**
   * A typed status that only canonicalises to "returned" (say
   * "RETURNED") marks the record returned without setting its return date.
   */
  lemma ReturnDateNeedsLiteral(borrowId: Json, returnDate: Json, toCanonical: Json -> Json, toZh: Json -> Json)
    requires toCanonical(JStr("RETURNED")) == Returned
    ensures var r := BorrowUpdateFor(borrowId, JStr("RETURNED"), returnDate, true, toCanonical, toZh);
      r.Update? && |r.params| == 2 && r.params[1] == PValue(borrowId)
  {
    assert JStr("RETURNED") != JStr("returned") by {
      assert "RETURNED"[0] != "returned"[0];
    }
  }
}
