/**
 * The `recommendation_history` table as an abstract store: rows in
 * insertion order, ids handed out in increasing order. Only the
 * operations the recommendation code issues are modelled: insert one
 * row, look a row up by id, and set `is_rejected` of one row.
 */
module HistoryStore {
  import opened Js

  /**
   * One history row. `rejected` is `is_rejected`, `None` standing for SQL
   * NULL; `callNumber` is the `call_number` column, never written by the
   * recommendation code and so NULL (`JNull`) on every inserted row.
   */
  datatype HistoryRow = HistoryRow(
    id: nat, readerId: string, modelUsed: string,
    title: Json, author: Json, reason: Json, callNumber: Json,
    rejected: Option<bool>)

  /** The row with recommendation_id `id`, if any. */
  function FindById(rows: seq<HistoryRow>, id: nat): (r: Option<HistoryRow>)
    ensures r.Some? ==> r.value in rows && r.value.id == id
    ensures r.None? <==> forall k :: 0 <= k < |rows| ==> rows[k].id != id
  {
    if |rows| == 0 then None
    else if rows[0].id == id then Some(rows[0])
    else FindById(rows[1..], id)
  }

  /** `UPDATE ... SET is_rejected = v WHERE recommendation_id = id`. */
  function SetRejected(rows: seq<HistoryRow>, id: nat, v: Option<bool>): (r: seq<HistoryRow>)
    ensures |r| == |rows|
    ensures forall k :: 0 <= k < |rows| && rows[k].id != id ==> r[k] == rows[k]
    ensures forall k :: 0 <= k < |rows| && rows[k].id == id ==> r[k] == rows[k].(rejected := v)
  {
    if |rows| == 0 then []
    else [if rows[0].id == id then rows[0].(rejected := v) else rows[0]] + SetRejected(rows[1..], id, v)
  }

  /** Ids increase strictly with insertion order and stay below the next id. */
  predicate IdsOrdered(rows: seq<HistoryRow>, nextId: nat)
  {
    (forall k :: 0 <= k < |rows| ==> rows[k].id < nextId)
    && forall j, k :: 0 <= j < k < |rows| ==> rows[j].id < rows[k].id
  }

  /** Rejecting changes no id, so it keeps the id order. */
  lemma SetRejectedKeepsIds(rows: seq<HistoryRow>, id: nat, v: Option<bool>, nextId: nat)
    requires IdsOrdered(rows, nextId)
    ensures IdsOrdered(SetRejected(rows, id, v), nextId)
  {
    var r := SetRejected(rows, id, v);
    assert forall k :: 0 <= k < |rows| ==> r[k].id == rows[k].id;
  }

  class Table {
    var rows: seq<HistoryRow>
    var nextId: nat

    ghost predicate Valid()
      reads this
    {
      IdsOrdered(rows, nextId)
    }

    constructor()
      ensures Valid() && rows == [] && nextId == 1
    {
      rows := [];
      nextId := 1;
    }

    /**
     * `INSERT ... RETURNING recommendation_id`: appends one row with a
     * fresh id, not rejected, and returns that id.
     */
    method Insert(readerId: string, modelUsed: string, title: Json, author: Json, reason: Json)
      returns (id: nat)
      requires Valid()
      modifies this
      ensures Valid()
      ensures id == old(nextId) && nextId == old(nextId) + 1
      ensures rows == old(rows) + [HistoryRow(id, readerId, modelUsed, title, author, reason, JNull, None)]
    {
      id := nextId;
      rows := rows + [HistoryRow(id, readerId, modelUsed, title, author, reason, JNull, None)];
      nextId := nextId + 1;
    }

    /** Sets `is_rejected` of the row with the given id; no other column or row changes. */
    method UpdateRejected(id: nat, v: Option<bool>)
      requires Valid()
      modifies this
      ensures Valid()
      ensures rows == SetRejected(old(rows), id, v) && nextId == old(nextId)
    {
      SetRejectedKeepsIds(rows, id, v, nextId);
      rows := SetRejected(rows, id, v);
    }
  }
}
