/**
 * The scenarios of helpers/sql.test.js and of the helper's documentation
 * comment, over a small JavaScript value type.
 */
module SqlExamples {
  import opened Wrappers
  import opened Sql
  import opened SetClauseReading

  /** The JavaScript values the scenarios use. */
  datatype JsValue = Str(s: string) | Num(n: int)

  const JohnAge45: Payload<JsValue> := [("firstName", Str("John")), ("age", Num(45))]

  // The scenarios below take the payload and the table as parameters fixed
  // by their requires, so that the solver does not evaluate the helper on
  // literal arguments.

  /** A table translating both fields: the translated names appear in order. */
  lemma ExampleWithMapping(dataToUpdate: Payload<JsValue>, jsToSql: NameTable)
    requires dataToUpdate == JohnAge45
    requires jsToSql == map["firstName" := "first_name", "age" := "age"]
    ensures SqlForPartialUpdate(dataToUpdate, jsToSql)
         == Success(PartialUpdate("\"first_name\"=$1, \"age\"=$2", [Str("John"), Num(45)]))
  {
    assert Column(jsToSql, "firstName") == "first_name" && Column(jsToSql, "age") == "age";
    TwoFieldScenario(dataToUpdate, jsToSql, "firstName", Str("John"), "age", Num(45), "\"first_name\"=$1, \"age\"=$2");
  }

  /** An empty table: every field is its own column. */
  lemma ExampleWithoutMapping(dataToUpdate: Payload<JsValue>, jsToSql: NameTable)
    requires dataToUpdate == JohnAge45
    requires jsToSql == map[]
    ensures SqlForPartialUpdate(dataToUpdate, jsToSql)
         == Success(PartialUpdate("\"firstName\"=$1, \"age\"=$2", [Str("John"), Num(45)]))
  {
    assert Column(jsToSql, "firstName") == "firstName" && Column(jsToSql, "age") == "age";
    TwoFieldScenario(dataToUpdate, jsToSql, "firstName", Str("John"), "age", Num(45), "\"firstName\"=$1, \"age\"=$2");
  }

  /** The documentation comment's example: only `firstName` is translated. */
  lemma ExampleDocComment(dataToUpdate: Payload<JsValue>, jsToSql: NameTable)
    requires dataToUpdate == JohnAge45
    requires jsToSql == map["firstName" := "first_name"]
    ensures SqlForPartialUpdate(dataToUpdate, jsToSql)
         == Success(PartialUpdate("\"first_name\"=$1, \"age\"=$2", [Str("John"), Num(45)]))
  {
    assert Column(jsToSql, "firstName") == "first_name" && Column(jsToSql, "age") == "age";
    TwoFieldScenario(dataToUpdate, jsToSql, "firstName", Str("John"), "age", Num(45), "\"first_name\"=$1, \"age\"=$2");
  }

  /** No fields: a bad request, even with a non-empty table. */
  lemma ExampleNoData()
    ensures SqlForPartialUpdate<JsValue>([], map["firstName" := "first_name"])
         == Failure(BadRequest("No data"))
  {
  }

  /** One field: one term ending in `$1`, one value. */
  lemma ExampleOneField()
    ensures SqlForPartialUpdate([("age", Num(45))], map["age" := "age"])
         == Success(PartialUpdate("\"age\"=$1", [Num(45)]))
  {
    SingleField("age", Num(45), map["age" := "age"]);
    assert Column(map["age" := "age"], "age") == "age";
    assert "\"" + "age" + "\"=$1" == "\"age\"=$1";
  }

  /**
   * Column names are not escaped: a field name of the form
   * `a"=$1, "b` smuggles a second assignment into the fragment of a
   * one-field payload, which then reads back as two assignments.
   */
  lemma UnescapedQuoteSplits<V>(a: string, b: string, value: V)
    requires QuoteFree(a) && QuoteFree(b)
    ensures var r := SqlForPartialUpdate([(a + "\"=$1, \"" + b, value)], map[]);
            && r.Success?
            && r.value.setCols == Term(a, 1) + ", " + Term(b, 1)
            && DecodeSetCols(r.value.setCols) == Some([(a, 1), (b, 1)])
  {
    var field := a + "\"=$1, \"" + b;
    SingleField(field, value, map[]);
    assert Column(map[], field) == field;
    assert Strings.NatToString(1) == "1";
    assert "\"=$1, \"" == "\"=$1" + ", " + "\"";
    calc {
      "\"" + field + "\"=$1";
      "\"" + a + "\"=$1" + ", " + "\"" + b + "\"=$1";
      Term(a, 1) + ", " + Term(b, 1);
    }
    DecodeTwoTerms(a, 1, b, 1);
  }

  /** The field `a"=$1, "b` yields `"a"=$1, "b"=$1`, which reads back as `a` and `b`, both from `$1`. */
  lemma ExampleUnescapedQuote(dataToUpdate: Payload<JsValue>, jsToSql: NameTable)
    requires dataToUpdate == [("a\"=$1, \"b", Num(45))]
    requires jsToSql == map[]
    ensures SqlForPartialUpdate(dataToUpdate, jsToSql).value.setCols == "\"a\"=$1, \"b\"=$1"
    ensures DecodeSetCols(SqlForPartialUpdate(dataToUpdate, jsToSql).value.setCols) == Some([("a", 1), ("b", 1)])
  {
    UnescapedQuoteText(dataToUpdate, jsToSql);
    var a, b := "a", "b";
    assert a + "\"=$1, \"" + b == dataToUpdate[0].0;
    assert dataToUpdate == [(a + "\"=$1, \"" + b, Num(45))];
    assert QuoteFree(a) && QuoteFree(b);
    UnescapedQuoteSplits(a, b, dataToUpdate[0].1);
  }

  lemma UnescapedQuoteText(dataToUpdate: Payload<JsValue>, jsToSql: NameTable)
    requires dataToUpdate == [("a\"=$1, \"b", Num(45))]
    requires jsToSql == map[]
    ensures SqlForPartialUpdate(dataToUpdate, jsToSql).value.setCols == "\"a\"=$1, \"b\"=$1"
  {
    SingleField("a\"=$1, \"b", Num(45), map[]);
  }

  /** Two terms with quote-free columns read back as their two assignments. */
  lemma DecodeTwoTerms(c1: string, p1: nat, c2: string, p2: nat)
    requires QuoteFree(c1) && QuoteFree(c2)
    ensures DecodeSetCols(Term(c1, p1) + ", " + Term(c2, p2)) == Some([(c1, p1), (c2, p2)])
  {
    DecodeTerm(c2, p2, "");
    DecodeTerm(c1, p1, Term(c2, p2));
    assert [(c1, p1)] + [(c2, p2)] == [(c1, p1), (c2, p2)];
  }

  /** A two-field scenario, once its expected text has been spelled out from the resolved columns. */
  lemma TwoFieldScenario<V>(dataToUpdate: Payload<V>, jsToSql: NameTable, first: string, v1: V, second: string, v2: V, setCols: string)
    requires dataToUpdate == [(first, v1), (second, v2)]
    requires setCols == "\"" + Column(jsToSql, first) + "\"=$1, \"" + Column(jsToSql, second) + "\"=$2"
    ensures SqlForPartialUpdate(dataToUpdate, jsToSql) == Success(PartialUpdate(setCols, [v1, v2]))
  {
    TwoFields(first, v1, second, v2, jsToSql);
  }

  /** Two fields: two terms numbered 1 and 2, and the two values, in order. */
  lemma TwoFields<V>(first: string, v1: V, second: string, v2: V, jsToSql: NameTable)
    ensures SqlForPartialUpdate([(first, v1), (second, v2)], jsToSql)
         == Success(PartialUpdate("\"" + Column(jsToSql, first) + "\"=$1, \"" + Column(jsToSql, second) + "\"=$2", [v1, v2]))
  {
    var p := [(first, v1), (second, v2)];
    var c1, c2 := Column(jsToSql, first), Column(jsToSql, second);
    var r := SqlForPartialUpdate(p, jsToSql);
    assert Strings.NatToString(1) == "1";
    assert Strings.NatToString(2) == "2";
    var a := Assignments(p, jsToSql);
    assert a == [(c1, 1), (c2, 2)];
    var terms := seq(|a|, k requires 0 <= k < |a| => Term(a[k].0, a[k].1));
    assert terms == [Term(c1, 1), Term(c2, 2)];
    assert Strings.Join(terms, ", ") == Term(c1, 1) + ", " + Term(c2, 2);
    assert Term(c1, 1) == "\"" + c1 + "\"=$1";
    assert Term(c2, 2) == "\"" + c2 + "\"=$2";
    assert "\"=$1, \"" == "\"=$1" + ", " + "\"";
    assert r.value.setCols == "\"" + c1 + "\"=$1, \"" + c2 + "\"=$2";
    assert r.value.values == [v1, v2];
  }
}
