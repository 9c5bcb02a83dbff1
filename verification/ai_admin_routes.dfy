/**
 * The administrator's AI-model routes: adding a model, the PATCH that
 * updates only the fields the body defines, deleting a model no active
 * session uses, the model test's guards and the usage statistics' date
 * filter. The database and the Ollama manager are left abstract: their
 * answers are parameters.
 */
module AiAdminRoutes {
  import opened Js
  import opened Text
  import opened Sql

  // ---------------------------------------------------------------------
  // POST /models
  // ---------------------------------------------------------------------

  /** A destructuring default: it applies only when the value is `undefined`. */
  function Default(v: Json, d: Json): (r: Json)
    ensures v != JUndefined ==> r == v
    ensures v == JUndefined ==> r == d
  {
    if v.JUndefined? then d else v
  }

  const DefaultMaxTokens: Json := JNum(4096.0)
  const DefaultTemperature: Json := JNum(0.7)

  /** The answer to POST `/models`. */
  datatype CreateAnswer =
    | NameAndTypeRequired
    | NameTaken
    | Created(params: seq<Param>)

  /**
   * POST `/models` as a value: the name and the type must be truthy; the
   * insert binds the body's values with `max_tokens` 4096, `temperature`
   * 0.7 and `model_config` `{}` when they are undefined. `duplicate` is
   * whether the insert fails on the unique name (error code 23505).
   */
  function CreateModel(body: seq<Field>, duplicate: bool): (r: CreateAnswer)
    ensures r.NameAndTypeRequired? <==> !Truthy(Lookup(body, "model_name")) || !Truthy(Lookup(body, "model_type"))
    ensures r.NameTaken? <==> !r.NameAndTypeRequired? && duplicate
    ensures r.Created? ==>
      (|r.params| == 6
       && r.params[0] == PValue(Lookup(body, "model_name")) && r.params[1] == PValue(Lookup(body, "model_type"))
       && r.params[2] == PValue(Lookup(body, "endpoint_url"))
       && (Lookup(body, "max_tokens") == JUndefined ==> r.params[3] == PValue(DefaultMaxTokens))
       && (Lookup(body, "max_tokens") != JUndefined ==> r.params[3] == PValue(Lookup(body, "max_tokens")))
       && (Lookup(body, "temperature") == JUndefined ==> r.params[4] == PValue(DefaultTemperature))
       && (Lookup(body, "temperature") != JUndefined ==> r.params[4] == PValue(Lookup(body, "temperature")))
       && (Lookup(body, "model_config") == JUndefined ==> r.params[5] == PStringified(JObj([])))
       && (Lookup(body, "model_config") != JUndefined ==> r.params[5] == PStringified(Lookup(body, "model_config"))))
  {
    var name, kind := Lookup(body, "model_name"), Lookup(body, "model_type");
    if !Truthy(name) || !Truthy(kind) then NameAndTypeRequired
    else if duplicate then NameTaken
    else
      Created([PValue(name), PValue(kind), PValue(Lookup(body, "endpoint_url")),
               PValue(Default(Lookup(body, "max_tokens"), DefaultMaxTokens)),
               PValue(Default(Lookup(body, "temperature"), DefaultTemperature)),
               PStringified(Default(Lookup(body, "model_config"), JObj([])))])
  }

  /**
   * A `null` max_tokens is bound as null, not as the default: only
   * `undefined` triggers a destructuring default.
   */
  lemma NullIsNotDefaulted(body: seq<Field>)
    requires Truthy(Lookup(body, "model_name")) && Truthy(Lookup(body, "model_type"))
    requires Lookup(body, "max_tokens") == JNull
    ensures CreateModel(body, false).Created? && CreateModel(body, false).params[3] == PValue(JNull)
  {
  }

  // ---------------------------------------------------------------------
  // PATCH /models/:modelId
  // ---------------------------------------------------------------------

  /** The columns a PATCH may set, in the order the handler tests them. */
  datatype Column = ModelName | EndpointUrl | IsActive | MaxTokens | Temperature | ModelConfig

  function ColumnRank(c: Column): nat
  {
    match c
    case ModelName => 0
    case EndpointUrl => 1
    case IsActive => 2
    case MaxTokens => 3
    case Temperature => 4
    case ModelConfig => 5
  }

  function ColumnName(c: Column): string
  {
    match c
    case ModelName => "model_name"
    case EndpointUrl => "endpoint_url"
    case IsActive => "is_active"
    case MaxTokens => "max_tokens"
    case Temperature => "temperature"
    case ModelConfig => "model_config"
  }

  /** `col = $k`. */
  function AssignmentSql(c: Cond<Column>): string
  {
    ColumnName(c.kind) + " = " + Placeholder(c.idx)
  }

  /**
   * The body's values as the handler destructures them: `given(c)` is
   * `req.body[ColumnName(c)]`, `undefined` when the key is absent.
   */
  function Destructured(body: seq<Field>): Column -> Json
  {
    c => Lookup(body, ColumnName(c))
  }

  /** The value a column binds: the body's, `JSON.stringify`'d for the model config. */
  function ColumnValue(c: Column, given: Column -> Json): Param
  {
    if c == ModelConfig then PStringified(given(c)) else PValue(given(c))
  }

  /** The column's update, asked for when the body defines it. */
  function ColumnUpdate(c: Column, given: Column -> Json): Filter<Column>
  {
    Filter(c, ColumnValue(c, given))
  }

  predicate Defined(c: Column, given: Column -> Json)
  {
    given(c) != JUndefined
  }

  /** The first three updates the handler tests: name, endpoint, active flag. */
  function HeadFields(given: Column -> Json): seq<Filter<Column>>
  {
    Opt(Defined(ModelName, given), ColumnUpdate(ModelName, given))
    + Opt(Defined(EndpointUrl, given), ColumnUpdate(EndpointUrl, given))
    + Opt(Defined(IsActive, given), ColumnUpdate(IsActive, given))
  }

  /** The last three: max tokens, temperature, model config. */
  function TailFields(given: Column -> Json): seq<Filter<Column>>
  {
    Opt(Defined(MaxTokens, given), ColumnUpdate(MaxTokens, given))
    + Opt(Defined(Temperature, given), ColumnUpdate(Temperature, given))
    + Opt(Defined(ModelConfig, given), ColumnUpdate(ModelConfig, given))
  }

  /** The updates, in the handler's order: each column whose body value is not `undefined`. */
  function PatchFields(given: Column -> Json): seq<Filter<Column>>
  {
    HeadFields(given) + TailFields(given)
  }

  /** A column ranked below 3 is updated by the head exactly when defined; every head update is its column's. */
  lemma HeadShape(given: Column -> Json)
    ensures var fs := HeadFields(given);
      (forall c :: ColumnUpdate(c, given) in fs <==> Defined(c, given) && ColumnRank(c) < 3)
      && (forall f :: f in fs ==> f == ColumnUpdate(f.kind, given) && ColumnRank(f.kind) < 3)
      && RankOrdered(fs, ColumnRank)
  {
    var g1, g2, g3 := ColumnUpdate(ModelName, given), ColumnUpdate(EndpointUrl, given), ColumnUpdate(IsActive, given);
    ThreeFilters(Defined(ModelName, given), g1, Defined(EndpointUrl, given), g2, Defined(IsActive, given), g3,
                 ColumnRank);
    var fs := HeadFields(given);
    forall f | f in fs
      ensures f == ColumnUpdate(f.kind, given) && ColumnRank(f.kind) < 3
    {
      assert f == g1 || f == g2 || f == g3;
    }
    HeadCovers(given);
  }

  /** The head updates exactly the defined columns of its rank range. */
  lemma HeadCovers(given: Column -> Json)
    ensures forall c :: ColumnUpdate(c, given) in HeadFields(given) <==> Defined(c, given) && ColumnRank(c) < 3
  {
    var g1, g2, g3 := ColumnUpdate(ModelName, given), ColumnUpdate(EndpointUrl, given), ColumnUpdate(IsActive, given);
    ThreeFilters(Defined(ModelName, given), g1, Defined(EndpointUrl, given), g2, Defined(IsActive, given), g3,
                 ColumnRank);
    forall c ensures ColumnUpdate(c, given) in HeadFields(given) <==> Defined(c, given) && ColumnRank(c) < 3 {
      assert ColumnUpdate(c, given).kind == c;
    }
  }

  /** A column ranked 3 or above is updated by the tail exactly when defined; every tail update is its column's. */
  lemma TailShape(given: Column -> Json)
    ensures var fs := TailFields(given);
      (forall c :: ColumnUpdate(c, given) in fs <==> Defined(c, given) && 3 <= ColumnRank(c))
      && (forall f :: f in fs ==> f == ColumnUpdate(f.kind, given) && 3 <= ColumnRank(f.kind))
      && RankOrdered(fs, ColumnRank)
  {
    var g4, g5, g6 := ColumnUpdate(MaxTokens, given), ColumnUpdate(Temperature, given), ColumnUpdate(ModelConfig, given);
    ThreeFilters(Defined(MaxTokens, given), g4, Defined(Temperature, given), g5, Defined(ModelConfig, given), g6,
                 ColumnRank);
    var fs := TailFields(given);
    forall f | f in fs
      ensures f == ColumnUpdate(f.kind, given) && 3 <= ColumnRank(f.kind)
    {
      assert f == g4 || f == g5 || f == g6;
    }
    TailCovers(given);
  }

  /** The tail updates exactly the defined columns of its rank range. */
  lemma TailCovers(given: Column -> Json)
    ensures forall c :: ColumnUpdate(c, given) in TailFields(given) <==> Defined(c, given) && 3 <= ColumnRank(c)
  {
    var g4, g5, g6 := ColumnUpdate(MaxTokens, given), ColumnUpdate(Temperature, given), ColumnUpdate(ModelConfig, given);
    ThreeFilters(Defined(MaxTokens, given), g4, Defined(Temperature, given), g5, Defined(ModelConfig, given), g6,
                 ColumnRank);
    forall c ensures ColumnUpdate(c, given) in TailFields(given) <==> Defined(c, given) && 3 <= ColumnRank(c) {
      assert ColumnUpdate(c, given).kind == c;
    }
  }

  /**
   * A column is updated exactly when the body defines it, with the body's
   * value, and the updates come in the fixed column order (so none twice).
   */
  lemma PatchFieldsShape(given: Column -> Json)
    ensures var fs := PatchFields(given);
      (forall c :: ColumnUpdate(c, given) in fs <==> Defined(c, given))
      && (forall f :: f in fs ==> f == ColumnUpdate(f.kind, given))
      && RankOrdered(fs, ColumnRank)
  {
    HeadShape(given);
    TailShape(given);
    RankOrderedConcat(HeadFields(given), TailFields(given), 3, ColumnRank);
  }

  /**
   * The UPDATE statement the PATCH sends: its SET list, the number of
   * the WHERE placeholder and the parameters; its text is `PatchText`.
   */
  datatype PatchStatement = PatchStatement(assignments: seq<string>, idIndex: nat, params: seq<Param>)

  /** The answer to a PATCH. */
  datatype PatchAnswer = NoFields | ModelMissing(stmt: PatchStatement) | Patched(stmt: PatchStatement)

  /** `UPDATE ai_models SET ... WHERE model_id = $n RETURNING ...` with the template's line breaks. */
  function PatchText(assignments: seq<string>, idIndex: nat): string
  {
    "UPDATE ai_models\n       SET " + Join(assignments, ", ") + "\n       WHERE model_id = " + Placeholder(idIndex)
    + "\n       RETURNING model_id, model_name, model_type, is_active, updated_at"
  }

  /** The SET list: one assignment per update, then the timestamp. */
  function Assignments(cs: seq<Cond<Column>>): (r: seq<string>)
    ensures |r| == |cs| + 1 && r[|cs|] == "updated_at = CURRENT_TIMESTAMP"
    ensures forall k :: 0 <= k < |cs| ==> r[k] == AssignmentSql(cs[k])
  {
    seq(|cs|, k requires 0 <= k < |cs| => AssignmentSql(cs[k])) + ["updated_at = CURRENT_TIMESTAMP"]
  }

  /**
   * PATCH `/models/:modelId` as a value; `found` is whether the UPDATE
   * changed a row.
   */
  function PatchFor(modelId: Json, given: Column -> Json, found: bool): PatchAnswer
  {
    if |PatchFields(given)| == 0 then NoFields
    else if found then Patched(PatchStatementFor(modelId, given))
    else ModelMissing(PatchStatementFor(modelId, given))
  }

  /** The UPDATE the PATCH sends when the body defines some column. */
  function PatchStatementFor(modelId: Json, given: Column -> Json): PatchStatement
  {
    var fs := PatchFields(given);
    var assignments := Assignments(Numbered(fs, 1));
    PatchStatement(assignments, |fs| + 1, Values(fs) + [PValue(modelId)])
  }

  /** The first three `if (x !== undefined)` blocks. */
  method PatchHead(given: Column -> Json) returns (conds: seq<Cond<Column>>, values: seq<Param>, paramIndex: nat)
    ensures var fs := HeadFields(given);
      conds == Numbered(fs, 1) && values == Values(fs) && paramIndex == |values| + 1
  {
    var g1, g2, g3 := ColumnUpdate(ModelName, given), ColumnUpdate(EndpointUrl, given), ColumnUpdate(IsActive, given);
    ghost var f1 := Opt(Defined(ModelName, given), g1);
    ghost var f2 := f1 + Opt(Defined(EndpointUrl, given), g2);
    assert [] + f1 == f1;
    conds, values, paramIndex := AddIndexed(Defined(ModelName, given), g1, [], [], 1, []);
    conds, values, paramIndex := AddIndexed(Defined(EndpointUrl, given), g2, conds, values, paramIndex, f1);
    conds, values, paramIndex := AddIndexed(Defined(IsActive, given), g3, conds, values, paramIndex, f2);
  }

  /** The last three blocks, after the updates `head` already numbered. */
  method PatchTail(given: Column -> Json, conds: seq<Cond<Column>>, values: seq<Param>, paramIndex: nat,
                   ghost head: seq<Filter<Column>>)
    returns (conds2: seq<Cond<Column>>, values2: seq<Param>, paramIndex2: nat)
    requires conds == Numbered(head, 1) && values == Values(head) && paramIndex == |values| + 1
    ensures var fs := head + TailFields(given);
      conds2 == Numbered(fs, 1) && values2 == Values(fs) && paramIndex2 == |fs| + 1
  {
    var g4, g5, g6 := ColumnUpdate(MaxTokens, given), ColumnUpdate(Temperature, given), ColumnUpdate(ModelConfig, given);
    ghost var f4 := head + Opt(Defined(MaxTokens, given), g4);
    ghost var f5 := f4 + Opt(Defined(Temperature, given), g5);
    assert head + TailFields(given) == f5 + Opt(Defined(ModelConfig, given), g6);
    conds2, values2, paramIndex2 := AddIndexed(Defined(MaxTokens, given), g4, conds, values, paramIndex, head);
    conds2, values2, paramIndex2 := AddIndexed(Defined(Temperature, given), g5, conds2, values2, paramIndex2, f4);
    conds2, values2, paramIndex2 := AddIndexed(Defined(ModelConfig, given), g6, conds2, values2, paramIndex2, f5);
  }

  /** All six blocks: the updates and their values, `paramIndex` one past them. */
  method PatchUpdates(given: Column -> Json) returns (conds: seq<Cond<Column>>, values: seq<Param>, paramIndex: nat)
    ensures var fs := PatchFields(given);
      conds == Numbered(fs, 1) && values == Values(fs) && paramIndex == |fs| + 1
  {
    conds, values, paramIndex := PatchHead(given);
    conds, values, paramIndex := PatchTail(given, conds, values, paramIndex, HeadFields(given));
  }

  /** PATCH `/models/:modelId`. */
  method PatchModel(modelId: Json, given: Column -> Json, found: bool) returns (r: PatchAnswer)
    ensures r == PatchFor(modelId, given, found)
  {
    var conds, updateValues, paramIndex := PatchUpdates(given);
    if |conds| == 0 {
      return NoFields;
    }
    var updateFields := Assignments(conds);
    updateValues := updateValues + [PValue(modelId)];
    var stmt := PatchStatement(updateFields, paramIndex, updateValues);
    if found {
      r := Patched(stmt);
    } else {
      r := ModelMissing(stmt);
    }
  }

  /**
   * A PATCH is refused, before any statement, exactly when the body
   * defines none of the columns; otherwise the statement is sent and a
   * missing model is known only from its row count.
   */
  lemma PatchNeedsAField(modelId: Json, given: Column -> Json, found: bool)
    ensures var r := PatchFor(modelId, given, found);
      (r.NoFields? <==> forall c :: !Defined(c, given))
      && (!r.NoFields? ==> r.stmt == PatchStatementFor(modelId, given) && (r.Patched? <==> found))
  {
    var fs := PatchFields(given);
    PatchFieldsShape(given);
    if |fs| == 0 {
      forall c ensures !Defined(c, given) {
        assert ColumnUpdate(c, given) !in fs;
      }
    } else {
      assert fs[0] in fs;
    }
  }

  /** Each update, by position, is its column's: the column and the body's value for it. */
  lemma PatchFieldsAt(given: Column -> Json)
    ensures var fs := PatchFields(given);
      forall k :: 0 <= k < |fs| ==> fs[k] == ColumnUpdate(fs[k].kind, given) && Defined(fs[k].kind, given)
  {
    var fs := PatchFields(given);
    PatchFieldsShape(given);
    forall k | 0 <= k < |fs| ensures fs[k] == ColumnUpdate(fs[k].kind, given) && Defined(fs[k].kind, given) {
      assert fs[k] in fs;
    }
  }

  /**
   * The k-th assignment sets the k-th defined column from `$(k+1)`,
   * which names that column's value; the timestamp comes last, and the
   * WHERE placeholder is the number of parameters, the last being the
   * model id.
   */
  lemma PatchPlaceholders(modelId: Json, given: Column -> Json)
    ensures var s := PatchStatementFor(modelId, given);
      var fs := PatchFields(given);
      |s.assignments| == |fs| + 1 && |s.params| == |fs| + 1
      && (forall k :: 0 <= k < |fs| ==>
            s.assignments[k] == ColumnName(fs[k].kind) + " = " + Placeholder(k + 1)
            && Refers(k + 1, s.params) && s.params[k] == ColumnValue(fs[k].kind, given))
      && s.assignments[|fs|] == "updated_at = CURRENT_TIMESTAMP"
      && s.idIndex == |s.params| && s.params[|s.params| - 1] == PValue(modelId)
  {
    var fs := PatchFields(given);
    PatchFieldsAt(given);
    var cs := Numbered(fs, 1);
    var a := Assignments(cs);
    var params := Values(fs) + [PValue(modelId)];
    assert PatchStatementFor(modelId, given) == PatchStatement(a, |fs| + 1, params);
    forall k | 0 <= k < |fs|
      ensures a[k] == ColumnName(fs[k].kind) + " = " + Placeholder(k + 1) && params[k] == ColumnValue(fs[k].kind, given)
    {
      assert a[k] == AssignmentSql(cs[k]) && cs[k] == Cond(fs[k].kind, k + 1);
      assert params[k] == fs[k].value;
    }
  }

  // ---------------------------------------------------------------------
  // DELETE /models/:modelId
  // ---------------------------------------------------------------------

  datatype DeleteAnswer = InUse | NoModel | Deleted(message: string)

  /**
   * DELETE `/models/:modelId`: `activeSessions` is the count of active
   * sessions on the model, and `deletedName` the name the DELETE
   * returned (`None` when no row was deleted).
   */
  function DeleteModel(activeSessions: nat, deletedName: Option<Json>): (r: DeleteAnswer)
    ensures r.InUse? <==> activeSessions > 0
    ensures r.NoModel? <==> activeSessions == 0 && deletedName.None?
  {
    if activeSessions > 0 then InUse
    else if deletedName.None? then NoModel
    else Deleted("模型 " + JsString(deletedName.value) + " 删除成功")
  }

  /** A model in use is refused before any DELETE: the answer does not depend on what it would return. */
  lemma InUseRefusedFirst(activeSessions: nat, d1: Option<Json>, d2: Option<Json>)
    requires activeSessions > 0
    ensures DeleteModel(activeSessions, d1) == DeleteModel(activeSessions, d2) == InUse
  {
  }

  // ---------------------------------------------------------------------
  // POST /models/:id/test
  // ---------------------------------------------------------------------

  datatype TestAnswer = TestNoModel | NotOllama | TestPassed | TestFailed(error: Json)

  /** The model row the test looks up: its type and name. */
  datatype ModelRow = ModelRow(name: Json, kind: Json)

  /**
   * POST `/models/:id/test`: only a model whose type is exactly the string
   * "ollama" is tested; `testModel` is the manager's test, returning
   * whether it succeeded and its error.
   */
  function TestModel(model: Option<ModelRow>, prompt: Json, testModel: (Json, Json) -> (bool, Json)): (r: TestAnswer)
    ensures r.TestNoModel? <==> model.None?
    ensures r.NotOllama? <==> model.Some? && model.value.kind != JStr("ollama")
    ensures r.TestPassed? ==> testModel(model.value.name, prompt).0
    ensures model.Some? && model.value.kind == JStr("ollama") ==>
      (r.TestPassed? <==> testModel(model.value.name, prompt).0)
    ensures r.TestFailed? ==>
      model.Some? && model.value.kind == JStr("ollama") && r.error == testModel(model.value.name, prompt).1
  {
    if model.None? then TestNoModel
    else if model.value.kind != JStr("ollama") then NotOllama
    else
      var res := testModel(model.value.name, prompt);
      if res.0 then TestPassed else TestFailed(res.1)
  }

  /** A model of another type is refused without calling the manager. */
  lemma OtherTypesNotTested(model: ModelRow, prompt: Json, t1: (Json, Json) -> (bool, Json),
                            t2: (Json, Json) -> (bool, Json))
    requires model.kind != JStr("ollama")
    ensures TestModel(Some(model), prompt, t1) == TestModel(Some(model), prompt, t2) == NotOllama
  {
  }

  // ---------------------------------------------------------------------
  // GET /stats
  // ---------------------------------------------------------------------

  /** The variable parts of the two statistics statements. */
  datatype StatsQuery = StatsQuery(dateFilter: string, joinFilter: string, params: seq<Param>)

  /** GET `/stats`: the date filter, only when both dates are truthy. */
  method StatsFilter(startDate: Json, endDate: Json) returns (q: StatsQuery)
    ensures Truthy(startDate) && Truthy(endDate) ==>
      q == StatsQuery("WHERE usage_date BETWEEN $1 AND $2", "AND aus.usage_date BETWEEN $1 AND $2",
                      [PValue(startDate), PValue(endDate)])
    ensures !(Truthy(startDate) && Truthy(endDate)) ==> q == StatsQuery("", "", [])
  {
    var dateFilter := "";
    var params: seq<Param> := [];
    if Truthy(startDate) && Truthy(endDate) {
      dateFilter := "WHERE usage_date BETWEEN $1 AND $2";
      params := params + [PValue(startDate), PValue(endDate)];
    }
    var joinFilter := if dateFilter != "" then "AND aus.usage_date BETWEEN $1 AND $2" else "";
    q := StatsQuery(dateFilter, joinFilter, params);
  }
}
