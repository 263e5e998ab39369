/** The structured-filter compiler: one (operator, column, value) triple becomes
    one parameterized SQL fragment, or a `TypeError` when the value's shape does
    not suit the operator. Pure: no state, no I/O. */
module FilterHelper {
  import opened SqlValues

  /** The filter operators. `Unlisted` stands for any operator value the
      compiler's switch does not name; it takes the default branch, as
      `Equal` does. */
  datatype Operator =
    | Equal | NotEqual
    | LessThan | LessThanOrEqual | GreaterThan | GreaterThanOrEqual
    | StartWith | EndWith | Contains
    | In | NotIn | Between
    | BitwiseAny | BitwiseZero | BitwiseAll
    | Unlisted

  /** The operators whose filter value must be an array. */
  predicate TakesArray(op: Operator)
  {
    op == In || op == NotIn || op == Between
  }

  predicate IsComparison(op: Operator)
  {
    op == LessThan || op == LessThanOrEqual || op == GreaterThan || op == GreaterThanOrEqual
  }

  predicate IsPattern(op: Operator)
  {
    op == StartWith || op == EndWith || op == Contains
  }

  /** The value's shape does not suit the operator: a non-array for IN, NOT_IN
      or BETWEEN, an array of other than two values for BETWEEN, or an array
      for any other operator. */
  predicate ShapeMismatch(op: Operator, v: Value)
  {
    if TakesArray(op) then !v.Arr? || (op == Between && |v.items| != 2)
    else v.Arr?
  }

  const BetweenCountMessage := "if \"BETWEEN\" operator, the count of filter value must be 2"
  const MustBeArrayMessage := "filter value of \"IN\" or \"NOT_IN\" operator must be array"
  const NoArrayMessage := "if not \"BETWEEN\", \"IN\" or \"NOT_IN\" operator, filter value can not be array or collection."

  /** Validates the filter value against the operator and turns it into the
      list of values the expression builders consume. */
  function GetFilterValues(op: Operator, v: Value): (r: Result<seq<Value>>)
    ensures r.Err? <==> ShapeMismatch(op, v)
    ensures r.Err? ==> r.error.TypeError?
    ensures r.Ok? && TakesArray(op) ==> r.value == v.items
    ensures r.Ok? && !TakesArray(op) ==>
      |r.value| == 1 && !r.value[0].Arr? && (r.value[0].Null? <==> v.Null?)
    ensures r.Ok? && !TakesArray(op) && !IsPattern(op) ==> r.value == [v]
  {
    if TakesArray(op) then
      if v.Arr? then
        if op == Between && |v.items| != 2 then Err(TypeError(BetweenCountMessage))
        else Ok(v.items)
      else Err(TypeError(MustBeArrayMessage))
    else if v.Arr? then Err(TypeError(NoArrayMessage))
    // a null value is kept as null and never reaches ProcessSingleFilterValue
    else if v.Null? then Ok([Null])
    else Ok([ProcessSingleFilterValue(op, v)])
  }

  /** Text of a non-array value, with null read as the empty string. */
  function TextOrEmpty(v: Value): string
    requires !v.Arr?
  {
    if v.Null? then "" else ScalarText(v.scalar)
  }

  /** Wraps the value in `%` wildcards for the pattern operators; leaves it as
      it is for every other operator. */
  function ProcessSingleFilterValue(op: Operator, v: Value): (r: Value)
    requires !v.Arr?
    ensures IsPattern(op) ==> r.Scalar? && r.scalar.Str?
    ensures op == StartWith ==> r.scalar.s == TextOrEmpty(v) + "%"
    ensures op == EndWith ==> r.scalar.s == "%" + TextOrEmpty(v)
    ensures op == Contains ==> r.scalar.s == "%" + TextOrEmpty(v) + "%"
    ensures !IsPattern(op) ==> r == v
  {
    if op == StartWith then Scalar(Str(TextOrEmpty(v) + "%"))
    else if op == EndWith then Scalar(Str("%" + TextOrEmpty(v)))
    else if op == Contains then Scalar(Str("%" + TextOrEmpty(v) + "%"))
    else if v.Null? then Null
    else v
  }

  /** `filterValues[0]`, which is `undefined` on an empty list. */
  function First(values: seq<Value>): Value
  {
    if |values| > 0 then values[0] else Null
  }

  /** The values `Array.prototype.concat` appends for one argument: the
      elements of an array, or the value itself. */
  function Spread(v: Value): seq<Value>
  {
    if v.Arr? then v.items else [v]
  }

  /** `n` placeholders joined by `", "`, as mapping every value to `?` and
      joining gives them. */
  function PlaceholderList(n: nat): string
  {
    Join(seq(n, i => Mark), ", ")
  }

  // The expression builders, one per SQL shape. Each states how many
  // placeholders its text adds to those of the column text.

  /** EQUAL (`nullTest` is `" IS NULL"`, `sqlOperator` is `" = "`) and
      NOT_EQUAL (`" IS NOT NULL"`, `" <> "`): a null first value gives the
      null test and no params, any other the operator and one placeholder. */
  function NullTestExpression(column: string, nullTest: string, sqlOperator: string, values: seq<Value>): (r: SqlTemplate)
    requires (nullTest, sqlOperator) in {(" IS NULL", " = "), (" IS NOT NULL", " <> ")}
    ensures First(values).Null? ==> r.params == [] && Placeholders(r.sqlExpression) == Placeholders(column)
    ensures !First(values).Null? ==> r.params == values && Placeholders(r.sqlExpression) == Placeholders(column) + 1
  {
    AppendText(column, nullTest);
    AppendText(column, sqlOperator);
    AppendMark(column + sqlOperator);
    if First(values).Null? then SqlTemplate(column + nullTest, [])
    else SqlTemplate(column + sqlOperator + Mark, values)
  }

  /** The comparisons and LIKE: the column, an SQL operator, one placeholder.
      START_WITH, END_WITH and CONTAINS share ` LIKE `: their `%` wildcards
      are already part of the value. */
  function ComparisonExpression(column: string, sqlOperator: string, values: seq<Value>): (r: SqlTemplate)
    requires sqlOperator in {" < ", " <= ", " >= ", " > ", " LIKE "}
    ensures r.params == values && Placeholders(r.sqlExpression) == Placeholders(column) + 1
  {
    AppendText(column, sqlOperator);
    AppendMark(column + sqlOperator);
    SqlTemplate(column + sqlOperator + Mark, values)
  }

  /** IN (`keyword` is `" IN ("`) and NOT IN (`keyword` is `" NOT IN ("`): one
      placeholder per value; no values give the empty template. */
  function InListExpression(column: string, keyword: string, values: seq<Value>): (r: SqlTemplate)
    requires keyword in {" IN (", " NOT IN ("}
    ensures r.params == values
    ensures values != [] ==> Placeholders(r.sqlExpression) == Placeholders(column) + |values|
    ensures values == [] ==> r == EmptyTemplate
  {
    if |values| > 0 then
      var list := PlaceholderList(|values|);
      AppendText(column, keyword);
      PlaceholdersAppend(column + keyword, list);
      PlaceholderListCount(|values|);
      AppendText(column + keyword + list, ")");
      SqlTemplate(column + keyword + list + ")", values)
    else EmptyTemplate
  }

  function BetweenExpression(column: string, values: seq<Value>): (r: SqlTemplate)
    ensures r.params == values && Placeholders(r.sqlExpression) == Placeholders(column) + 2
  {
    AppendText(column, " BETWEEN ");
    AppendMark(column + " BETWEEN ");
    AppendText(column + " BETWEEN " + Mark, " AND ");
    AppendMark(column + " BETWEEN " + Mark + " AND ");
    SqlTemplate(column + " BETWEEN " + Mark + " AND " + Mark, values)
  }

  /** BITWISE_ANY (`test` is `" > 0"`) and BITWISE_ZERO (`test` is `" = 0"`). */
  function BitwiseTestExpression(column: string, test: string, values: seq<Value>): (r: SqlTemplate)
    requires test in {" > 0", " = 0"}
    ensures r.params == values && Placeholders(r.sqlExpression) == Placeholders(column) + 1
  {
    AppendText(column, " & ");
    AppendMark(column + " & ");
    AppendText(column + " & " + Mark, test);
    SqlTemplate(column + " & " + Mark + test, values)
  }

  /** The one value, bound twice; `concat` would spread an array value. */
  function BitwiseAllExpression(column: string, values: seq<Value>): (r: SqlTemplate)
    ensures !First(values).Arr? ==> r.params == [First(values), First(values)]
    ensures Placeholders(r.sqlExpression) == Placeholders(column) + 2
  {
    var v := First(values);
    AppendText(column, " & ");
    AppendMark(column + " & ");
    AppendText(column + " & " + Mark, " = ");
    AppendMark(column + " & " + Mark + " = ");
    SqlTemplate(column + " & " + Mark + " = " + Mark, Spread(v) + Spread(v))
  }

  /** Compiles one structured filter on the column whose query text is
      `column`: a `TypeError` exactly when the value's shape does not suit the
      operator, and otherwise the fragment of the operator's builder. */
  function GetFilterExpression(op: Operator, column: string, v: Value): (r: Result<SqlTemplate>)
    ensures r.Err? <==> ShapeMismatch(op, v)
    ensures r.Err? ==> r.error.TypeError?
  {
    match GetFilterValues(op, v)
    case Err(e) => Err(e)
    case Ok(values) =>
      Ok(match op
        case NotEqual => NullTestExpression(column, " IS NOT NULL", " <> ", values)
        case LessThan => ComparisonExpression(column, " < ", values)
        case LessThanOrEqual => ComparisonExpression(column, " <= ", values)
        case GreaterThanOrEqual => ComparisonExpression(column, " >= ", values)
        case GreaterThan => ComparisonExpression(column, " > ", values)
        case StartWith => ComparisonExpression(column, " LIKE ", values)
        case EndWith => ComparisonExpression(column, " LIKE ", values)
        case Contains => ComparisonExpression(column, " LIKE ", values)
        case In => InListExpression(column, " IN (", values)
        case NotIn => InListExpression(column, " NOT IN (", values)
        case Between => BetweenExpression(column, values)
        case BitwiseAny => BitwiseTestExpression(column, " > 0", values)
        case BitwiseZero => BitwiseTestExpression(column, " = 0", values)
        case BitwiseAll => BitwiseAllExpression(column, values)
        case _ => NullTestExpression(column, " IS NULL", " = ", values))
  }

  // ---------------------------------------------------------------------------
  // What each operator compiles to

  /** EQUAL, and any operator the switch does not name: `IS NULL` without
      params for null, `= ?` with the value otherwise. */
  lemma EqualCompiles(op: Operator, column: string, v: Value)
    requires op == Equal || op == Unlisted
    requires !v.Arr?
    ensures GetFilterExpression(op, column, v) ==
      if v.Null? then Ok(SqlTemplate(column + " IS NULL", []))
      else Ok(SqlTemplate(column + " = ?", [v]))
  {
    assert GetFilterValues(op, v) == Ok([v]);
    assert column + " = " + Mark == column + " = ?" by {
      assert " = " + Mark == " = ?";
    }
  }

  /** NOT_EQUAL: `IS NOT NULL` without params for null, `<> ?` with the value otherwise. */
  lemma NotEqualCompiles(column: string, v: Value)
    requires !v.Arr?
    ensures GetFilterExpression(NotEqual, column, v) ==
      if v.Null? then Ok(SqlTemplate(column + " IS NOT NULL", []))
      else Ok(SqlTemplate(column + " <> ?", [v]))
  {
    assert GetFilterValues(NotEqual, v) == Ok([v]);
    assert column + " <> " + Mark == column + " <> ?" by {
      assert " <> " + Mark == " <> ?";
    }
  }

  /** The four comparisons: one placeholder bound to the value, null included. */
  lemma ComparisonCompiles(op: Operator, column: string, v: Value)
    requires IsComparison(op)
    requires !v.Arr?
    ensures GetFilterExpression(op, column, v) ==
      Ok(SqlTemplate(column + (match op
                               case LessThan => " < ?"
                               case LessThanOrEqual => " <= ?"
                               case GreaterThan => " > ?"
                               case _ => " >= ?"), [v]))
  {
    assert GetFilterValues(op, v) == Ok([v]);
    match op {
      case LessThan =>
        assert column + " < " + Mark == column + " < ?" by { assert " < " + Mark == " < ?"; }
      case LessThanOrEqual =>
        assert column + " <= " + Mark == column + " <= ?" by { assert " <= " + Mark == " <= ?"; }
      case GreaterThan =>
        assert column + " > " + Mark == column + " > ?" by { assert " > " + Mark == " > ?"; }
      case GreaterThanOrEqual =>
        assert column + " >= " + Mark == column + " >= ?" by { assert " >= " + Mark == " >= ?"; }
    }
  }

  /** START_WITH, END_WITH and CONTAINS on a non-null value: `LIKE ?` bound to
      the value's text with `%` appended, prepended, or both. */
  lemma PatternCompiles(op: Operator, column: string, v: Scalar)
    requires IsPattern(op)
    ensures GetFilterExpression(op, column, Scalar(v)) ==
      Ok(SqlTemplate(column + " LIKE ?", [Scalar(Str(
        match op
        case StartWith => ScalarText(v) + "%"
        case EndWith => "%" + ScalarText(v)
        case _ => "%" + ScalarText(v) + "%"))]))
  {
    assert column + " LIKE " + Mark == column + " LIKE ?" by {
      assert " LIKE " + Mark == " LIKE ?";
    }
  }

  /** START_WITH, END_WITH and CONTAINS on null: `LIKE ?` bound to null. The
      empty-string reading of null in ProcessSingleFilterValue would give a
      `%` pattern, but a null value never reaches it. */
  lemma PatternOnNullBindsNull(op: Operator, column: string)
    requires IsPattern(op)
    ensures GetFilterExpression(op, column, Null) == Ok(SqlTemplate(column + " LIKE ?", [Null]))
    ensures ProcessSingleFilterValue(op, Null) != Null
  {
    assert GetFilterValues(op, Null) == Ok([Null]);
    assert column + " LIKE " + Mark == column + " LIKE ?" by {
      assert " LIKE " + Mark == " LIKE ?";
    }
  }

  /** IN and NOT_IN: one placeholder per element, joined by `", "` inside
      parentheses, params the elements in order; an empty array gives the
      empty template. */
  lemma InListCompiles(op: Operator, column: string, items: seq<Value>)
    requires op == In || op == NotIn
    ensures GetFilterExpression(op, column, Arr(items)) ==
      if items == [] then Ok(EmptyTemplate)
      else Ok(SqlTemplate(column + (if op == In then " IN (" else " NOT IN (")
                          + PlaceholderList(|items|) + ")", items))
  {
  }

  /** IN over three numbers, written out. */
  lemma InListOfThree(column: string)
    ensures GetFilterExpression(In, column, Arr([Scalar(Num(1)), Scalar(Num(2)), Scalar(Num(3))])) ==
      Ok(SqlTemplate(column + " IN (?, ?, ?)", [Scalar(Num(1)), Scalar(Num(2)), Scalar(Num(3))]))
  {
    var marks := seq(3, i => Mark);
    assert marks == [Mark, Mark, Mark];
    assert marks[1..] == [Mark, Mark] && marks[2..] == [Mark];
    assert Join(marks[2..], ", ") == Mark;
    assert Join(marks[1..], ", ") == Mark + ", " + Mark;
    assert PlaceholderList(3) == Mark + ", " + (Mark + ", " + Mark) == "?, ?, ?";
    assert column + " IN (" + "?, ?, ?" + ")" == column + " IN (?, ?, ?)";
  }

  /** BETWEEN: two placeholders bound to the two elements in order. */
  lemma BetweenCompiles(column: string, a: Value, b: Value)
    ensures GetFilterExpression(Between, column, Arr([a, b])) ==
      Ok(SqlTemplate(column + " BETWEEN ? AND ?", [a, b]))
  {
    assert column + " BETWEEN " + Mark + " AND " + Mark == column + " BETWEEN ? AND ?" by {
      assert " BETWEEN " + Mark + " AND " + Mark == " BETWEEN ? AND ?";
    }
  }

  /** The bitwise tests: ANY and ZERO bind the value once, ALL binds it twice. */
  lemma BitwiseCompiles(column: string, v: Value)
    requires !v.Arr?
    ensures GetFilterExpression(BitwiseAny, column, v) == Ok(SqlTemplate(column + " & ? > 0", [v]))
    ensures GetFilterExpression(BitwiseZero, column, v) == Ok(SqlTemplate(column + " & ? = 0", [v]))
    ensures GetFilterExpression(BitwiseAll, column, v) == Ok(SqlTemplate(column + " & ? = ?", [v, v]))
  {
    var values := GetFilterValues(BitwiseAll, v).value;
    assert values == [v] && First(values) == v && Spread(v) == [v];
    assert Spread(v) + Spread(v) == [v, v];
    assert column + " & " + Mark + " > 0" == column + " & ? > 0" by {
      assert " & " + Mark + " > 0" == " & ? > 0";
    }
    assert column + " & " + Mark + " = 0" == column + " & ? = 0" by {
      assert " & " + Mark + " = 0" == " & ? = 0";
    }
    assert column + " & " + Mark + " = " + Mark == column + " & ? = ?" by {
      assert " & " + Mark + " = " + Mark == " & ? = ?";
    }
  }

  // ---------------------------------------------------------------------------
  // The placeholder invariant

  lemma {:induction false} PlaceholderListCount(n: nat)
    ensures Placeholders(PlaceholderList(n)) == n
  {
    var marks := seq(n, i => Mark);
    AppendMark([]);
    assert [] + Mark == Mark;
    if n >= 2 {
      assert marks[1..] == seq(n - 1, i => Mark);
      PlaceholderListCount(n - 1);
      assert PlaceholderList(n) == Mark + ", " + PlaceholderList(n - 1);
      AppendText(Mark, ", ");
      PlaceholdersAppend(Mark + ", ", PlaceholderList(n - 1));
    } else if n == 1 {
      assert marks == [Mark];
    }
  }

  /** The central invariant: a compiled fragment has exactly one param per
      placeholder when the column text has no `?` of its own. */
  lemma PlaceholdersMatchParams(op: Operator, column: string, v: Value)
    requires '?' !in column
    ensures var r := GetFilterExpression(op, column, v);
      r.Ok? ==> Placeholders(r.value.sqlExpression) == |r.value.params|
  {
    NoPlaceholders(column);
  }
}
