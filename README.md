# ts-sql-dynamic-query: filter compiler and write-result normalisation, in Dafny

This project models two parts of a TypeScript data-access layer.

1. **The structured-filter compiler** (`FilterHelper.getFilterExpression`), in
   module `FilterHelper` (`filter_helper.dfy`). It takes an operator, the query
   text of a column and a raw filter value. It returns one `SqlTemplate`: an
   expression with positional `?` placeholders and the ordered list of their
   params. If the value's shape does not suit the operator, it returns a
   `TypeError`. The compiler is pure, so it is modelled as functions and lemmas.
2. **The write path of `BaseTableMapper`**, in module `TableMapper`
   (`table_mapper.dfy`). Insert, update and delete each run one statement on
   the connection. They then work out the affected-row count, and for an
   insert the generated key, from the database type:
   - MYSQL: both values come from the run result.
   - SQLITE3: the values come from follow-up `sqlite_sequence` and
     `changes()` queries.
   - Any other database: both values are 0.

   This code changes state step by step. So the connection is a class that
   logs every statement it receives and answers from scripted replies. The
   entity is a class with mutable fields. The mapper's methods are imperative.
   Each write method is proved equal to a pure outcome function
   (`InsertOutcome` or `CountOutcome`). The two SQLITE3 follow-up queries are
   proved equal to `SeqIdOf` and `ChangeCountOf`. The lemmas state the
   properties of those functions.

Values, templates and errors shared by both parts are in module `SqlValues`
(`sql_values.dfy`):
- A JavaScript value is `Null` (`null` or `undefined`), a `Scalar` (number,
  string or boolean) or an `Arr`ay.
- A rejected promise is an `Err` carrying a `TypeError`, a plain `Error`, or an
  `External` failure passed through from a collaborator.
- `Placeholders(s)` counts the `?` in a text.

Two behaviours of the code for a null filter value:
- START_WITH, END_WITH and CONTAINS with a null value bind `null`, not a
  `%`-wrapped empty string. `getFilterValues` pushes `null` itself
  (src/helper/filterHelper.ts:59-60), so the empty-string branches of
  `processSingleFilterValue` (lines 71, 73 and 75) never see null.
  `PatternOnNullBindsNull` states this.
- The comparison builders (lines 105-131) and the bitwise builders (lines
  167-187) accept a null value and bind it as a param.

`SqlTemplate` is not part of this model. The builders show only that `params`
starts as an array (they call `params.concat`). The model assumes a fresh
template has an empty expression and no params. That is the template an empty
IN / NOT IN list yields.

## Model

| member | source | states |
|---|---|---|
| `FilterHelper.GetFilterValues` | src/helper/filterHelper.ts:40-67 | Fails with a TypeError exactly when the shape does not fit: IN, NOT_IN or BETWEEN with a non-array, BETWEEN with other than two elements, or any other operator with an array. For the array operators the list is the elements. Otherwise it is one non-array element, null exactly when the value is null, and the value itself for non-pattern operators |
| `FilterHelper.ProcessSingleFilterValue` | src/helper/filterHelper.ts:69-79 | START_WITH gives the value's text + `%`, END_WITH gives `%` + text, CONTAINS gives `%` + text + `%` (null read as empty text). Every other operator leaves the value unchanged |
| `FilterHelper.GetFilterExpression` | src/helper/filterHelper.ts:6-38 | Rejects with a TypeError exactly when the value's shape does not fit the operator. The fragment each operator compiles to is stated by `EqualCompiles`, `NotEqualCompiles`, `ComparisonCompiles`, `PatternCompiles`, `PatternOnNullBindsNull`, `InListCompiles`, `BetweenCompiles` and `BitwiseCompiles` |
| `FilterHelper.NullTestExpression` | src/helper/filterHelper.ts:81-103 | EQUAL and NOT_EQUAL: a null first value gives no params and no placeholder beyond the column's. Otherwise the params are the values and the text adds one placeholder |
| `FilterHelper.ComparisonExpression` | src/helper/filterHelper.ts:105-138 | `<`, `<=`, `>=`, `>` and `LIKE`: the params are the values, and the text adds exactly one placeholder to the column's |
| `FilterHelper.InListExpression` | src/helper/filterHelper.ts:140-158 | IN / NOT IN: the params are the values. A non-empty list adds one placeholder per value, and an empty list gives the empty template |
| `FilterHelper.BetweenExpression` | src/helper/filterHelper.ts:160-165 | The params are the values, and the text adds two placeholders |
| `FilterHelper.BitwiseTestExpression` | src/helper/filterHelper.ts:167-179 | BITWISE_ANY / BITWISE_ZERO: the params are the values, and the text adds one placeholder |
| `FilterHelper.BitwiseAllExpression` | src/helper/filterHelper.ts:181-187 | A non-array first value is bound twice, and the text adds two placeholders |
| `FilterHelper.EqualCompiles` | src/helper/filterHelper.ts:81-91 | EQUAL, and any unlisted operator through the default branch: null gives `C IS NULL` with no params, and v gives `C = ?` with params `[v]` |
| `FilterHelper.NotEqualCompiles` | src/helper/filterHelper.ts:93-103 | NOT_EQUAL: null gives `C IS NOT NULL` with no params, and v gives `C <> ?` with params `[v]` |
| `FilterHelper.ComparisonCompiles` | src/helper/filterHelper.ts:105-131 | LESS_THAN, LESS_THAN_OR_EQUAL, GREATER_THAN and GREATER_THAN_OR_EQUAL give `C < ?`, `C <= ?`, `C > ?` and `C >= ?`, each with params `[v]` (null included) |
| `FilterHelper.PatternCompiles` | src/helper/filterHelper.ts:133-138 | A non-null v gives `C LIKE ?`: START_WITH binds v's text + `%`, END_WITH binds `%` + text, and CONTAINS binds `%` + text + `%` |
| `FilterHelper.PatternOnNullBindsNull` | src/helper/filterHelper.ts:59-63 | START_WITH, END_WITH and CONTAINS with null give `C LIKE ?` with params `[null]`. The `%` wrapping of null would give a non-null value, but null never reaches it |
| `FilterHelper.InListCompiles` | src/helper/filterHelper.ts:140-158 | IN / NOT IN over a non-empty array give `C IN (` / `C NOT IN (` + the placeholder list + `)`, with the elements as params in order. An empty array gives the empty template |
| `FilterHelper.InListOfThree` | src/helper/filterHelper.ts:140-148 | IN over `[1, 2, 3]` gives `C IN (?, ?, ?)` with params `[1, 2, 3]` |
| `FilterHelper.BetweenCompiles` | src/helper/filterHelper.ts:160-165 | BETWEEN `[a, b]` gives `C BETWEEN ? AND ?` with params `[a, b]` |
| `FilterHelper.BitwiseCompiles` | src/helper/filterHelper.ts:167-187 | BITWISE_ANY gives `C & ? > 0` with `[v]`, BITWISE_ZERO gives `C & ? = 0` with `[v]`, and BITWISE_ALL gives `C & ? = ?` with `[v, v]` |
| `FilterHelper.PlaceholderListCount` | src/helper/filterHelper.ts:143 | Mapping n values to `?` and joining them with `", "` gives exactly n placeholders |
| `FilterHelper.PlaceholdersMatchParams` | src/helper/filterHelper.ts:81-187 | Every successfully compiled fragment has exactly as many `?` as params, given a column text with no `?` |
| `SqlValues.PlaceholdersAppend` | src/helper/filterHelper.ts:85-87 | The placeholder count of a concatenation is the sum of the parts' counts |
| `TableMapper.BaseTableMapper.Insert` | src/mapper/baseTableMapper.ts:13-15 | It is `insertInternal` with `selective` false: same result, issued statements and key write |
| `TableMapper.BaseTableMapper.InsertSelective` | src/mapper/baseTableMapper.ts:17-19 | It is `insertInternal` with `selective` true |
| `TableMapper.BaseTableMapper.UpdateByPrimaryKey` | src/mapper/baseTableMapper.ts:21-23 | It is `updateByPrimaryKeyInternal` with `selective` false, and no entity is modified |
| `TableMapper.BaseTableMapper.UpdateByPrimaryKeySelective` | src/mapper/baseTableMapper.ts:25-27 | It is `updateByPrimaryKeyInternal` with `selective` true |
| `TableMapper.BaseTableMapper.Delete` | src/mapper/baseTableMapper.ts:88-115 | The three delete entry points: a failed assembly rejects with its error and issues nothing. Otherwise it is `deleteInternal` on the assembled statement |
| `TableMapper.BaseTableMapper.InsertInternal` | src/mapper/baseTableMapper.ts:117-148 | The result, the statements appended to the connection log, and the entity's new fields (the key property set to the generated key, all else unchanged) are those of `InsertOutcome` |
| `TableMapper.BaseTableMapper.UpdateByPrimaryKeyInternal` | src/mapper/baseTableMapper.ts:150-166 | The result and the appended statements are those of `CountOutcome`, and only the connection log changes |
| `TableMapper.BaseTableMapper.DeleteInternal` | src/mapper/baseTableMapper.ts:168-183 | The result and the appended statements are those of `CountOutcome` for the given statement |
| `TableMapper.BaseTableMapper.GetSeqIdForSqlite` | src/mapper/baseTableMapper.ts:185-201 | It issues `SELECT seq FROM sqlite_sequence WHERE name = ?` with the entity's table name. It yields the first row's `seq`, rejects with "cannot find seqId" when there is no row, and passes a failed query through |
| `TableMapper.BaseTableMapper.GetEffectCountForSqlite` | src/mapper/baseTableMapper.ts:203-216 | It issues `SELECT changes() as change FROM <table>` with no params. It yields the first row's `change`, rejects with a TypeError when there is no row, and passes a failed query through |
| `TableMapper.MySqlInsertUsesRunResult` | src/mapper/baseTableMapper.ts:125-129 | MYSQL insert resolves with `affectedRows` and issues only the insert. An auto-increment key gets `insertId`, and otherwise no key is written |
| `TableMapper.SqliteInsertFollowUpOrder` | src/mapper/baseTableMapper.ts:130-134 | SQLITE3 insert with an auto-increment key issues the insert, then the `sqlite_sequence` lookup with `[tableName]`, then `changes()` with no params. The key is the first `seq` and the result is the first `change` |
| `TableMapper.SqliteMissingSeqIdRejects` | src/mapper/baseTableMapper.ts:190-196 | With no `sqlite_sequence` row the insert rejects with "cannot find seqId". No `changes()` query is issued and no key is written |
| `TableMapper.OtherDatabaseReportsZero` | src/mapper/baseTableMapper.ts:135-143 | Under any other database, insert, update and delete resolve with 0 after the one statement. An auto-increment key is overwritten with 0 |
| `TableMapper.CountDispatch` | src/mapper/baseTableMapper.ts:150-183 | Update and delete count from `affectedRows` (MYSQL), from the `changes()` follow-up (SQLITE3) or as 0 (other), and never write a key. An insert without an auto-increment key behaves identically |
| `TableMapper.FailureStopsTheWrite` | src/mapper/baseTableMapper.ts:117-147 | A failed assembly or run rejects with that same error. Nothing after the failed step is issued, no key is written, and insert, update and delete agree |
| `TableMapper.KeyWrittenIffInsertSucceeds` | src/mapper/baseTableMapper.ts:140-143 | The key is written exactly when the key column is auto-increment and the insert resolves. The main statement comes first, with at most two follow-ups, and those only under SQLITE3 |
| `TableMapper.WithKeyTouchesOnlyTheKey` | src/mapper/baseTableMapper.ts:141-142 | Writing the generated key changes no entity property other than the key property |

## Left out

- `SqlValues.EmptyTemplate`: the `SqlTemplate` class is not part of this model. Its defaults are assumed to be an empty expression and an empty params list. If the class leaves `sqlExpression` uninitialised, IN / NOT IN over an empty array yield an `undefined` expression, which this model does not capture.
- The select and selectCount wrappers (src/mapper/baseTableMapper.ts:29-86) are left out. They only hand the statement provider's output to the base mapper, which is not part of this model.
- The statement provider (`SqlTemplateProvider`), `EntityHelper` and `getPkColumn` are not part of this model.
  - Their answers are inputs: the assembled statement, or its failure, as a function of the `selective` flag for insert and update.
  - The primary-key column is an input too.
- `deleteByExample`, `deleteByPrimaryKey` and `deleteByDynamicQuery` are one method, `Delete`, because they differ only in the provider call that assembles the statement.
- The database connection is not part of this model. It is a class that logs statements and answers from fixed replies.
  - A query's rows are given by the one column the caller reads (`seq` or `change`).
  - A row that lacks that column, which `Number(...)` would turn into NaN, is not modelled.
- The message of the TypeError raised by reading `change` from a missing row depends on the JavaScript engine. The model uses a fixed message.
- `SqlValues.ScalarText`: a number of magnitude 10^21 or more is written out in full. JavaScript's `+` writes it in exponent form (`1e+21`), so START_WITH, END_WITH and CONTAINS bind a different text for such numbers. JavaScript's number-to-text algorithm is not modelled.
- `Number(...)` coercion of driver values is left out: the driver's values are integers. JavaScript's floating-point numbers are modelled as integers everywhere.
- Non-array objects (such as dates) as filter values are left out: a value is null, a number, a string, a boolean or an array.
- Promises and async scheduling are sequential results.
  - Interleaving with other callers on the same session is not modelled. The SQLITE3 follow-ups rely on no other statement running between the write and them.
- The query cache (src/cache/queryCache.ts) is left out. It forwards to an internal registry that is not part of this model.
- The custom filter and sort descriptors are left out. Their only behaviour is serialisation by a library that is not part of this model.
