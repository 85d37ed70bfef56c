/**
 * `jsToSql` is documented as optional, but the helper reads
 * `jsToSql[colName]` unconditionally, so a call that leaves it out
 * (`undefined`) ends in a TypeError for any non-empty payload. The
 * helper as written is modelled next to the evidently intended one, in
 * which an omitted table translates nothing.
 */
module OptionalTable {
  import opened Wrappers
  import opened Sql

  /**
   * sqlForPartialUpdate as written, with `jsToSql` possibly `undefined`
   * (None): the empty check comes first, then the lookup into the table.
   */
  function SqlForPartialUpdateAsWritten<V>(dataToUpdate: Payload<V>, jsToSql: Option<NameTable>): (r: Result<PartialUpdate<V>, SqlError>)
    ensures |dataToUpdate| == 0 ==> r == Failure(BadRequest(NoDataMessage))
    ensures |dataToUpdate| > 0 && jsToSql.None? ==> r == Failure(TypeError)
    ensures jsToSql.Some? ==> r == SqlForPartialUpdate(dataToUpdate, jsToSql.value)
  {
    if |dataToUpdate| == 0 then Failure(BadRequest(NoDataMessage))
    else if jsToSql.None? then Failure(TypeError)
    else SqlForPartialUpdate(dataToUpdate, jsToSql.value)
  }

  /** `sqlForPartialUpdate({ age: 45 })` throws a TypeError as written. */
  lemma OmittedTableThrows()
    ensures SqlForPartialUpdateAsWritten([("age", 45)], None) == Failure(TypeError)
  {
  }

  /** The intended helper: an omitted table behaves like the empty table `{}`. */
  function SqlForPartialUpdateOptional<V>(dataToUpdate: Payload<V>, jsToSql: Option<NameTable>): (r: Result<PartialUpdate<V>, SqlError>)
    ensures r.Failure? <==> |dataToUpdate| == 0
    ensures r.Failure? ==> r.error == BadRequest(NoDataMessage)
    ensures jsToSql.Some? ==> r == SqlForPartialUpdate(dataToUpdate, jsToSql.value)
    ensures jsToSql.None? && r.Success? ==>
              r.value.setCols == Render(seq(|dataToUpdate|, k requires 0 <= k < |dataToUpdate| => (dataToUpdate[k].0, k + 1)))
    ensures jsToSql.None? && r.Success? ==>
              r.value.values == seq(|dataToUpdate|, k requires 0 <= k < |dataToUpdate| => dataToUpdate[k].1)
  {
    var table := if jsToSql.Some? then jsToSql.value else map[];
    assert jsToSql.None? ==>
      Assignments(dataToUpdate, table) == seq(|dataToUpdate|, k requires 0 <= k < |dataToUpdate| => (dataToUpdate[k].0, k + 1));
    SqlForPartialUpdate(dataToUpdate, table)
  }

  /**
   * The intended helper never throws a TypeError: with the table left
   * out, a non-empty payload succeeds and every field is its own column.
   */
  lemma OmittedTableIsIdentity<V>(dataToUpdate: Payload<V>)
    requires |dataToUpdate| >= 1
    ensures SqlForPartialUpdateOptional(dataToUpdate, None) == SqlForPartialUpdate(dataToUpdate, map[])
    ensures SqlForPartialUpdateAsWritten(dataToUpdate, None) == Failure(TypeError)
    ensures forall k :: 0 <= k < |dataToUpdate| ==> Assignments(dataToUpdate, map[])[k] == (dataToUpdate[k].0, k + 1)
  {
  }
}
