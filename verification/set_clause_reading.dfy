/**
 * A reader for the fragment's own format: a list of
 * `"<column>"=$<digits>` assignments separated by ", ". It follows the
 * builder's format only, not the database's rules for quoted
 * identifiers (a doubled quote inside a name, the ban on empty names).
 * Decoding is the inverse of the builder. Whenever no resolved column name contains a
 * double quote, the fragment reads back as exactly the intended
 * assignments: the k-th field's column, taken from placeholder k + 1.
 * The builder does not escape quotes, so the condition is one its
 * callers must meet by using trusted column names.
 */
module SetClauseReading {
  import opened Wrappers
  import opened Strings
  import opened Sql

  predicate QuoteFree(name: string) {
    forall i :: 0 <= i < |name| ==> name[i] != '"'
  }

  /** Parses `"<column>"=$<digits>` terms separated by ", ", or fails. */
  function DecodeSetCols(s: string): (r: Option<seq<(string, nat)>>)
    ensures r.Some? ==> |r.value| >= 1
    decreases |s|
  {
    if |s| == 0 || s[0] != '"' then None
    else
      var close := 1 + SpanUntil(s[1..], '"');
      if close + 3 > |s| || s[close + 1] != '=' || s[close + 2] != '$' then None
      else
        var digits := DigitSpan(s[close + 3..]);
        if digits == 0 then None
        else
          var end := close + 3 + digits;
          var assignment := (s[1..close], ParseDecimal(s[close + 3..end]));
          if end == |s| then Some([assignment])
          else if end + 2 <= |s| && s[end] == ',' && s[end + 1] == ' ' then
            match DecodeSetCols(s[end + 2..])
            case None => None
            case Some(more) => Some([assignment] + more)
          else None
  }

  lemma SpanUntilQuote(column: string, rest: string)
    requires QuoteFree(column)
    ensures SpanUntil(column + "\"" + rest, '"') == |column|
  {
    var s := column + "\"" + rest;
    assert s[|column|] == '"';
    assert forall i :: 0 <= i < |column| ==> s[i] == column[i];
  }

  lemma DigitSpanOf(digits: string, tail: string)
    requires AllDigits(digits)
    requires tail == [] || tail[0] == ','
    ensures DigitSpan(digits + tail) == |digits|
  {
    var s := digits + tail;
    assert forall i :: 0 <= i < |digits| ==> IsDigit(s[i]);
    assert |digits| < |s| ==> s[|digits|] == ',';
  }

  /** The closing quote of a term with a quote-free column comes right after the column, followed by `=$`. */
  lemma ScanQuote(column: string, position: nat, tail: string)
    requires QuoteFree(column)
    ensures var s := Term(column, position) + tail;
            && |s| == |column| + 4 + |NatToString(position)| + |tail|
            && SpanUntil(s[1..], '"') == |column|
            && s[|column| + 2] == '=' && s[|column| + 3] == '$'
            && s[1..|column| + 1] == column
  {
    var digits := NatToString(position);
    var s := Term(column, position) + tail;
    assert s == "\"" + column + "\"=$" + digits + tail;
    assert s[1..] == column + "\"" + ("=$" + digits + tail);
    SpanUntilQuote(column, "=$" + digits + tail);
  }

  /** After `=$` come exactly the placeholder's digits, then `tail`. */
  lemma ScanDigits(column: string, position: nat, tail: string)
    requires tail == [] || tail[0] == ','
    ensures var s := Term(column, position) + tail;
            var digits := NatToString(position);
            && |s| == |column| + 4 + |digits| + |tail|
            && DigitSpan(s[|column| + 4..]) == |digits|
            && s[|column| + 4..|column| + 4 + |digits|] == digits
            && s[|column| + 4 + |digits|..] == tail
  {
    var digits := NatToString(position);
    var s := Term(column, position) + tail;
    assert s == ("\"" + column + "\"=$") + (digits + tail);
    var afterDollar := s[|column| + 4..];
    assert afterDollar == digits + tail;
    DigitSpanOf(digits, tail);
  }

  /** A term followed by nothing, or by ", " and more, decodes its own assignment first. */
  lemma DecodeTermThen(column: string, position: nat, tail: string)
    requires QuoteFree(column)
    requires tail == [] || tail[0] == ','
    ensures tail == [] ==> DecodeSetCols(Term(column, position) + tail) == Some([(column, position)])
    ensures |tail| >= 2 && tail[1] == ' ' ==>
              (DecodeSetCols(Term(column, position) + tail)
               == match DecodeSetCols(tail[2..])
                  case None => None
                  case Some(more) => Some([(column, position)] + more))
  {
    ScanQuote(column, position, tail);
    ScanDigits(column, position, tail);
    ParseNatToString(position);
  }

  lemma DecodeTerm(column: string, position: nat, rest: string)
    requires QuoteFree(column)
    ensures DecodeSetCols(Term(column, position)) == Some([(column, position)])
    ensures DecodeSetCols(Term(column, position) + ", " + rest)
         == match DecodeSetCols(rest)
            case None => None
            case Some(more) => Some([(column, position)] + more)
  {
    DecodeTermThen(column, position, []);
    assert Term(column, position) + [] == Term(column, position);
    var tail := ", " + rest;
    DecodeTermThen(column, position, tail);
    assert Term(column, position) + ", " + rest == Term(column, position) + tail;
    assert tail[2..] == rest;
  }

  /** Decoding the text of a list of assignments gives the list back. */
  lemma {:induction false} DecodeRender(assignments: seq<(string, nat)>)
    requires |assignments| >= 1
    requires forall k :: 0 <= k < |assignments| ==> QuoteFree(assignments[k].0)
    ensures DecodeSetCols(Render(assignments)) == Some(assignments)
    decreases |assignments|
  {
    var head := assignments[0];
    var terms := seq(|assignments|, k requires 0 <= k < |assignments| => Term(assignments[k].0, assignments[k].1));
    if |assignments| == 1 {
      assert terms == [Term(head.0, head.1)];
      assert Render(assignments) == Term(head.0, head.1);
      DecodeTerm(head.0, head.1, "");
      assert assignments == [head];
    } else {
      var tail := assignments[1..];
      assert terms[1..] == seq(|tail|, k requires 0 <= k < |tail| => Term(tail[k].0, tail[k].1));
      assert Render(assignments) == Term(head.0, head.1) + ", " + Render(tail);
      DecodeRender(tail);
      DecodeTerm(head.0, head.1, Render(tail));
      assert [head] + tail == assignments;
    }
  }

  /**
   * Reading the fragment of a successful call recovers, for every field k,
   * its resolved column and the placeholder k + 1; `values[k]` is the
   * value of that same field. Placeholders are thus numbered 1..n with
   * no gap, in payload order, in lock-step with the values.
   */
  lemma LockStep<V>(dataToUpdate: Payload<V>, jsToSql: NameTable)
    requires |dataToUpdate| >= 1
    requires DistinctKeys(dataToUpdate)
    requires forall k :: 0 <= k < |dataToUpdate| ==> QuoteFree(Column(jsToSql, dataToUpdate[k].0))
    ensures SqlForPartialUpdate(dataToUpdate, jsToSql).Success?
    ensures var r := SqlForPartialUpdate(dataToUpdate, jsToSql).value;
            var read := DecodeSetCols(r.setCols);
            && read.Some?
            && |read.value| == |r.values| == |dataToUpdate|
            && forall k :: 0 <= k < |dataToUpdate| ==>
                 && read.value[k] == (Column(jsToSql, dataToUpdate[k].0), k + 1)
                 && FieldValue(dataToUpdate, dataToUpdate[k].0) == Some(r.values[k])
  {
    var r := SqlForPartialUpdate(dataToUpdate, jsToSql).value;
    var a := Assignments(dataToUpdate, jsToSql);
    DecodeRender(a);
    assert DecodeSetCols(r.setCols) == Some(a);
    forall k | 0 <= k < |dataToUpdate|
      ensures FieldValue(dataToUpdate, dataToUpdate[k].0) == Some(r.values[k])
    {
      ValueOwnsPlaceholder(dataToUpdate, jsToSql, k);
    }
  }

  /**
   * Translation precedence and identity fallback, read from the fragment:
   * the column assigned at placeholder k + 1 is the table's non-empty
   * entry for the k-th field when there is one, and the field name
   * itself otherwise.
   */
  lemma ColumnOfPlaceholder<V>(dataToUpdate: Payload<V>, jsToSql: NameTable, k: nat)
    requires k < |dataToUpdate|
    requires forall j :: 0 <= j < |dataToUpdate| ==> QuoteFree(Column(jsToSql, dataToUpdate[j].0))
    ensures var read := DecodeSetCols(SqlForPartialUpdate(dataToUpdate, jsToSql).value.setCols);
            var field := dataToUpdate[k].0;
            && read.Some? && k < |read.value| && read.value[k].1 == k + 1
            && (field in jsToSql && jsToSql[field] != "" ==> read.value[k].0 == jsToSql[field])
            && (field !in jsToSql || jsToSql[field] == "" ==> read.value[k].0 == field)
  {
    DecodeRender(Assignments(dataToUpdate, jsToSql));
  }
}
