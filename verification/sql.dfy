/**
 * The partial-update helper of helpers/sql.js: from the fields to update
 * and a table translating JavaScript field names into column names, build
 * the SET fragment of a parameterised UPDATE and the list of values bound
 * to its placeholders.
 *
 * The JavaScript object `dataToUpdate` is an ordered sequence of
 * (field, value) pairs, in the order `Object.keys` and `Object.values`
 * enumerate it; `jsToSql` is a map from field name to column name; the
 * thrown BadRequestError is the `Failure` of a `Result`.
 */
module Sql {
  import opened Wrappers
  import opened Strings

  type Payload<V> = seq<(string, V)>

  type NameTable = map<string, string>

  /** The errors a call can end with. */
  datatype SqlError =
    | BadRequest(message: string)  // BadRequestError, thrown by the helper itself
    | TypeError                    // raised by the engine when a property of `undefined` is read

  /** The object `{ setCols, values }` the helper returns. */
  datatype PartialUpdate<V> = PartialUpdate(setCols: string, values: seq<V>)

  const NoDataMessage := "No data"

  /** JavaScript objects have no repeated keys. */
  predicate DistinctKeys<V>(payload: Payload<V>) {
    forall i, j :: 0 <= i < j < |payload| ==> payload[i].0 != payload[j].0
  }

  /** `dataToUpdate[field]`: the value stored under `field`, if any. */
  function FieldValue<V>(payload: Payload<V>, field: string): (r: Option<V>)
    ensures r.None? <==> forall k :: 0 <= k < |payload| ==> payload[k].0 != field
  {
    if |payload| == 0 then None
    else if payload[0].0 == field then Some(payload[0].1)
    else FieldValue(payload[1..], field)
  }

  /**
   * `jsToSql[colName] || colName`: the translated name when the table holds
   * a truthy (non-empty) string for the field, the field name otherwise.
   */
  function Column(jsToSql: NameTable, field: string): string
  {
    if field in jsToSql && jsToSql[field] != "" then jsToSql[field] else field
  }

  /** One assignment of the fragment: `"<column>"=$<position>`. */
  function Term(column: string, position: nat): string
  {
    "\"" + column + "\"=$" + NatToString(position)
  }

  /**
   * What the fragment is meant to say: the k-th field of the payload
   * (counting from 0) is assigned from placeholder k + 1, under its
   * resolved column name.
   */
  function Assignments<V>(payload: Payload<V>, jsToSql: NameTable): (a: seq<(string, nat)>)
  {
    seq(|payload|, k requires 0 <= k < |payload| => (Column(jsToSql, payload[k].0), k + 1))
  }

  /** The text of a list of assignments: their terms joined with ", ". */
  function Render(assignments: seq<(string, nat)>): string
  {
    Join(seq(|assignments|, k requires 0 <= k < |assignments| => Term(assignments[k].0, assignments[k].1)), ", ")
  }

  /** `Object.keys(dataToUpdate)`. */
  function ObjectKeys<V>(payload: Payload<V>): (keys: seq<string>)
    ensures |keys| == |payload|
    ensures forall k :: 0 <= k < |payload| ==> keys[k] == payload[k].0
  {
    if |payload| == 0 then [] else [payload[0].0] + ObjectKeys(payload[1..])
  }

  /** `Object.values(dataToUpdate)`: the values, unchanged, in key order. */
  function ObjectValues<V>(payload: Payload<V>): (values: seq<V>)
    ensures |values| == |payload|
    ensures forall k :: 0 <= k < |payload| ==> values[k] == payload[k].1
  {
    if |payload| == 0 then [] else [payload[0].1] + ObjectValues(payload[1..])
  }

  /**
   * `keys.map((colName, idx) => ...)` applied to the keys from index
   * `idx` on: each key becomes the term for its column and placeholder
   * `idx + 1`, in order.
   */
  function MapTerms(keys: seq<string>, jsToSql: NameTable, idx: nat): (cols: seq<string>)
    ensures |cols| == |keys|
    ensures forall k :: 0 <= k < |keys| ==> cols[k] == Term(Column(jsToSql, keys[k]), idx + k + 1)
  {
    if |keys| == 0 then []
    else [Term(Column(jsToSql, keys[0]), idx + 1)] + MapTerms(keys[1..], jsToSql, idx + 1)
  }

  /**
   * sqlForPartialUpdate(dataToUpdate, jsToSql). An empty payload is a bad
   * request and nothing else is; otherwise the fragment assigns the k-th
   * field's column from placeholder k + 1 and the k-th value is that
   * field's value.
   */
  function SqlForPartialUpdate<V>(dataToUpdate: Payload<V>, jsToSql: NameTable): (r: Result<PartialUpdate<V>, SqlError>)
    ensures r.Failure? <==> |dataToUpdate| == 0
    ensures r.Failure? ==> r.error == BadRequest(NoDataMessage)
    ensures r.Success? ==> r.value.setCols == Render(Assignments(dataToUpdate, jsToSql))
    ensures r.Success? ==> |r.value.values| == |dataToUpdate|
    ensures r.Success? ==> forall k :: 0 <= k < |dataToUpdate| ==> r.value.values[k] == dataToUpdate[k].1
  {
    var keys := ObjectKeys(dataToUpdate);
    if |keys| == 0 then Failure(BadRequest(NoDataMessage))
    else
      var cols := MapTerms(keys, jsToSql, 0);
      var a := Assignments(dataToUpdate, jsToSql);
      assert cols == seq(|a|, k requires 0 <= k < |a| => Term(a[k].0, a[k].1));
      Success(PartialUpdate(Join(cols, ", "), ObjectValues(dataToUpdate)))
  }

  /**
   * With distinct keys, the field whose term carries placeholder k + 1
   * is the field that `values[k]` belongs to: looking that field up by
   * name in the payload gives exactly `values[k]`.
   */
  lemma {:induction false} ValueOwnsPlaceholder<V>(dataToUpdate: Payload<V>, jsToSql: NameTable, k: nat)
    requires DistinctKeys(dataToUpdate)
    requires k < |dataToUpdate|
    ensures SqlForPartialUpdate(dataToUpdate, jsToSql).Success?
    ensures Assignments(dataToUpdate, jsToSql)[k] == (Column(jsToSql, dataToUpdate[k].0), k + 1)
    ensures FieldValue(dataToUpdate, dataToUpdate[k].0) == Some(SqlForPartialUpdate(dataToUpdate, jsToSql).value.values[k])
  {
    FieldValueAt(dataToUpdate, k);
  }

  lemma {:induction false} FieldValueAt<V>(payload: Payload<V>, k: nat)
    requires DistinctKeys(payload)
    requires k < |payload|
    ensures FieldValue(payload, payload[k].0) == Some(payload[k].1)
    decreases k
  {
    if k > 0 {
      assert payload[0].0 != payload[k].0;
      var tail := payload[1..];
      assert DistinctKeys(tail) by {
        forall i, j | 0 <= i < j < |tail| ensures tail[i].0 != tail[j].0 {
          assert tail[i] == payload[i + 1] && tail[j] == payload[j + 1];
        }
      }
      FieldValueAt(tail, k - 1);
    }
  }

  /**
   * A single field gives a single term, ending in `$1` with no separator,
   * and a single value.
   */
  lemma SingleField<V>(field: string, value: V, jsToSql: NameTable)
    ensures SqlForPartialUpdate([(field, value)], jsToSql)
         == Success(PartialUpdate("\"" + Column(jsToSql, field) + "\"=$1", [value]))
  {
    var r := SqlForPartialUpdate([(field, value)], jsToSql);
    assert NatToString(1) == "1";
    var a := Assignments([(field, value)], jsToSql);
    assert a == [(Column(jsToSql, field), 1)];
    assert seq(|a|, k requires 0 <= k < |a| => Term(a[k].0, a[k].1)) == [Term(Column(jsToSql, field), 1)];
    assert "\"=$" + NatToString(1) == "\"=$1";
    assert Term(Column(jsToSql, field), 1) == "\"" + Column(jsToSql, field) + "\"=$1";
    assert r.value.setCols == Term(Column(jsToSql, field), 1);
    assert r.value.values == [value];
  }

  /** The empty payload is rejected whatever the name table holds. */
  lemma EmptyPayloadRejected<V>(jsToSql: NameTable)
    ensures SqlForPartialUpdate<V>([], jsToSql) == Failure(BadRequest("No data"))
  {
  }
}
