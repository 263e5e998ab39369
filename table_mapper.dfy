/** The write path of the table mapper: insert, update and delete run one
    statement on the connection and then normalise what the driver reports
    (affected-row count, generated key) according to the connection's
    database type. MYSQL reports both in the run result; SQLITE3 needs
    follow-up queries; any other database gets zero for both. */
module TableMapper {
  import opened SqlValues

  datatype DatabaseType = MySql | Sqlite3 | OtherDatabase

  /** One statement as the connection received it. */
  datatype Statement = Statement(sql: string, params: seq<Value>)

  /** What the driver reports for a write statement. */
  datatype RunResult = RunResult(affectedRows: int, insertId: int)

  /** The primary-key column of an entity: the entity property it maps to and
      whether the database generates its value. */
  datatype KeyColumn = KeyColumn(property: string, autoIncrease: bool)

  /** The scripted answers of a connection: the result of `run`, the `seq`
      column of the rows the `sqlite_sequence` lookup returns, and the
      `change` column of the rows the `changes()` query returns. */
  datatype Replies = Replies(run: Result<RunResult>, seqRows: Result<seq<int>>, changeRows: Result<seq<int>>)

  /** What one write call amounts to: the value it resolves or rejects with,
      the statements it issues in order, and the generated key it writes onto
      the entity, if any. */
  datatype WriteOutcome = WriteOutcome(result: Result<int>, issued: seq<Statement>, keyWrite: Option<int>)

  const SeqIdSql := "SELECT seq FROM sqlite_sequence WHERE name = ?"
  const SeqIdMissingMessage := "cannot find seqId"
  /** The `TypeError` raised by reading `change` from a row that is not there. */
  const NoChangeRowMessage := "result[0] is undefined"

  function SeqIdStatement(tableName: string): Statement
  {
    Statement(SeqIdSql, [Scalar(Str(tableName))])
  }

  function ChangesStatement(tableName: string): Statement
  {
    Statement("SELECT changes() as change FROM " + tableName, [])
  }

  predicate HasAutoKey(keyColumn: Option<KeyColumn>)
  {
    keyColumn.Some? && keyColumn.value.autoIncrease
  }

  // ---------------------------------------------------------------------------
  // What each call amounts to

  /** The generated key the `sqlite_sequence` lookup yields: the first row's
      `seq`, or a rejection when there is no row. */
  function SeqIdOf(rows: Result<seq<int>>): (r: Result<int>)
    ensures rows.Ok? && rows.value != [] ==> r == Ok(rows.value[0])
    ensures rows.Ok? && rows.value == [] ==> r == Err(PlainError(SeqIdMissingMessage))
    ensures rows.Err? ==> r == Err(rows.error)
  {
    match rows
    case Err(e) => Err(e)
    case Ok(seqs) => if |seqs| > 0 then Ok(seqs[0]) else Err(PlainError(SeqIdMissingMessage))
  }

  /** The affected-row count the `changes()` query yields: the first row's
      `change`; with no row, reading it throws. */
  function ChangeCountOf(rows: Result<seq<int>>): (r: Result<int>)
    ensures rows.Ok? && rows.value != [] ==> r == Ok(rows.value[0])
    ensures rows.Ok? && rows.value == [] ==> r == Err(TypeError(NoChangeRowMessage))
    ensures rows.Err? ==> r == Err(rows.error)
  {
    match rows
    case Err(e) => Err(e)
    case Ok(changes) => if |changes| > 0 then Ok(changes[0]) else Err(TypeError(NoChangeRowMessage))
  }

  /** Insert: the main statement, then by database type the count and the
      generated key; the key is written only when the key column is
      auto-increment and every step has succeeded. `entityTable` is the table
      name the entity reports, `mapperTable` that of the mapper's entity class. */
  function InsertOutcome(dialect: DatabaseType, keyColumn: Option<KeyColumn>, assembled: Result<SqlTemplate>,
                         replies: Replies, entityTable: string, mapperTable: string): WriteOutcome
  {
    match assembled
    case Err(e) => WriteOutcome(Err(e), [], None)
    case Ok(t) =>
      var main := Statement(t.sqlExpression, t.params);
      match replies.run
      case Err(e) => WriteOutcome(Err(e), [main], None)
      case Ok(run) =>
        if dialect == MySql then
          WriteOutcome(Ok(run.affectedRows), [main], if HasAutoKey(keyColumn) then Some(run.insertId) else None)
        else if dialect == Sqlite3 then
          if HasAutoKey(keyColumn) then
            var lookup := [main, SeqIdStatement(entityTable)];
            match SeqIdOf(replies.seqRows)
            case Err(e) => WriteOutcome(Err(e), lookup, None)
            case Ok(id) =>
              match ChangeCountOf(replies.changeRows)
              case Err(e) => WriteOutcome(Err(e), lookup + [ChangesStatement(mapperTable)], None)
              case Ok(n) => WriteOutcome(Ok(n), lookup + [ChangesStatement(mapperTable)], Some(id))
          else
            WriteOutcome(ChangeCountOf(replies.changeRows), [main, ChangesStatement(mapperTable)], None)
        else
          WriteOutcome(Ok(0), [main], if HasAutoKey(keyColumn) then Some(0) else None)
  }

  /** Update and delete: the main statement, then the count by database type;
      no key is ever written. */
  function CountOutcome(dialect: DatabaseType, assembled: Result<SqlTemplate>, replies: Replies,
                        mapperTable: string): WriteOutcome
  {
    match assembled
    case Err(e) => WriteOutcome(Err(e), [], None)
    case Ok(t) =>
      var main := Statement(t.sqlExpression, t.params);
      match replies.run
      case Err(e) => WriteOutcome(Err(e), [main], None)
      case Ok(run) =>
        if dialect == MySql then WriteOutcome(Ok(run.affectedRows), [main], None)
        else if dialect == Sqlite3 then
          WriteOutcome(ChangeCountOf(replies.changeRows), [main, ChangesStatement(mapperTable)], None)
        else WriteOutcome(Ok(0), [main], None)
  }

  // ---------------------------------------------------------------------------
  // Properties of the write path

  /** MYSQL: the count is the run result's `affectedRows`; an auto-increment
      key gets its `insertId`; nothing follows the main statement. */
  lemma MySqlInsertUsesRunResult(keyColumn: Option<KeyColumn>, t: SqlTemplate, run: RunResult,
                                 replies: Replies, entityTable: string, mapperTable: string)
    requires replies.run == Ok(run)
    ensures InsertOutcome(MySql, keyColumn, Ok(t), replies, entityTable, mapperTable) ==
      WriteOutcome(Ok(run.affectedRows), [Statement(t.sqlExpression, t.params)],
                   if HasAutoKey(keyColumn) then Some(run.insertId) else None)
  {
  }

  /** SQLITE3 with an auto-increment key: the insert, then the `sqlite_sequence`
      lookup by the entity's table name, then the `changes()` query; the key
      is the first `seq` row and the count the first `change` row. */
  lemma SqliteInsertFollowUpOrder(keyColumn: Option<KeyColumn>, t: SqlTemplate, replies: Replies,
                                  entityTable: string, mapperTable: string)
    requires HasAutoKey(keyColumn) && replies.run.Ok?
    requires replies.seqRows.Ok? && replies.seqRows.value != []
    requires replies.changeRows.Ok? && replies.changeRows.value != []
    ensures InsertOutcome(Sqlite3, keyColumn, Ok(t), replies, entityTable, mapperTable) ==
      WriteOutcome(Ok(replies.changeRows.value[0]),
                   [Statement(t.sqlExpression, t.params),
                    Statement("SELECT seq FROM sqlite_sequence WHERE name = ?", [Scalar(Str(entityTable))]),
                    Statement("SELECT changes() as change FROM " + mapperTable, [])],
                   Some(replies.seqRows.value[0]))
  {
  }

  /** SQLITE3 with an auto-increment key and no `sqlite_sequence` row: the
      insert is rejected with "cannot find seqId", the `changes()` query is
      never issued and no key is written. */
  lemma SqliteMissingSeqIdRejects(keyColumn: Option<KeyColumn>, t: SqlTemplate, replies: Replies,
                                  entityTable: string, mapperTable: string)
    requires HasAutoKey(keyColumn) && replies.run.Ok? && replies.seqRows == Ok([])
    ensures InsertOutcome(Sqlite3, keyColumn, Ok(t), replies, entityTable, mapperTable) ==
      WriteOutcome(Err(PlainError("cannot find seqId")),
                   [Statement(t.sqlExpression, t.params), SeqIdStatement(entityTable)], None)
  {
  }

  /** Any other database: insert, update and delete resolve with 0, and an
      auto-increment key is overwritten with 0. */
  lemma OtherDatabaseReportsZero(keyColumn: Option<KeyColumn>, t: SqlTemplate, replies: Replies,
                                 entityTable: string, mapperTable: string)
    requires replies.run.Ok?
    ensures var out := InsertOutcome(OtherDatabase, keyColumn, Ok(t), replies, entityTable, mapperTable);
      out.result == Ok(0) && |out.issued| == 1
      && out.keyWrite == if HasAutoKey(keyColumn) then Some(0) else None
    ensures var out := CountOutcome(OtherDatabase, Ok(t), replies, mapperTable);
      out.result == Ok(0) && |out.issued| == 1
  {
  }

  /** Update and delete count as insert does: MYSQL from `affectedRows`,
      SQLITE3 from the `changes()` follow-up, any other database 0. An insert
      whose key is not auto-increment issues the same statements and resolves
      the same way. */
  lemma CountDispatch(dialect: DatabaseType, keyColumn: Option<KeyColumn>, assembled: Result<SqlTemplate>,
                      replies: Replies, entityTable: string, mapperTable: string)
    requires assembled.Ok? && replies.run.Ok?
    ensures var out := CountOutcome(dialect, assembled, replies, mapperTable);
      out.keyWrite == None
      && out.result == match dialect
                       case MySql => Ok(replies.run.value.affectedRows)
                       case Sqlite3 => ChangeCountOf(replies.changeRows)
                       case OtherDatabase => Ok(0)
    ensures !HasAutoKey(keyColumn) ==>
      InsertOutcome(dialect, keyColumn, assembled, replies, entityTable, mapperTable)
      == CountOutcome(dialect, assembled, replies, mapperTable)
  {
  }

  /** A failed assembly or a failed run rejects with that very error; only
      the statement that failed has been issued, and no key is written. */
  lemma FailureStopsTheWrite(dialect: DatabaseType, keyColumn: Option<KeyColumn>, assembled: Result<SqlTemplate>,
                             replies: Replies, entityTable: string, mapperTable: string)
    requires assembled.Err? || replies.run.Err?
    ensures var out := InsertOutcome(dialect, keyColumn, assembled, replies, entityTable, mapperTable);
      out.result == (if assembled.Err? then Err(assembled.error) else Err(replies.run.error))
      && out.issued == (if assembled.Err? then [] else [Statement(assembled.value.sqlExpression, assembled.value.params)])
      && out.keyWrite == None
    ensures CountOutcome(dialect, assembled, replies, mapperTable)
      == InsertOutcome(dialect, keyColumn, assembled, replies, entityTable, mapperTable)
  {
  }

  /** The key is written exactly when the key column is auto-increment and the
      insert resolves; every issued statement after the first is a SQLITE3
      follow-up, at most two of them. */
  lemma KeyWrittenIffInsertSucceeds(dialect: DatabaseType, keyColumn: Option<KeyColumn>, assembled: Result<SqlTemplate>,
                                    replies: Replies, entityTable: string, mapperTable: string)
    ensures var out := InsertOutcome(dialect, keyColumn, assembled, replies, entityTable, mapperTable);
      (out.keyWrite.Some? <==> HasAutoKey(keyColumn) && out.result.Ok?)
      && |out.issued| <= 3
      && (dialect != Sqlite3 ==> |out.issued| <= 1)
      && (assembled.Ok? ==> out.issued[0] == Statement(assembled.value.sqlExpression, assembled.value.params))
  {
  }

  // ---------------------------------------------------------------------------
  // The connection, the entity and the mapper

  /** A database connection with scripted replies; it records every statement
      it receives, in order. */
  class Connection {
    const dialect: DatabaseType
    const replies: Replies
    var log: seq<Statement>

    constructor (dialect: DatabaseType, replies: Replies)
      ensures this.dialect == dialect && this.replies == replies && log == []
    {
      this.dialect := dialect;
      this.replies := replies;
      log := [];
    }

    method Run(sql: string, params: seq<Value>) returns (r: Result<RunResult>)
      modifies this`log
      ensures log == old(log) + [Statement(sql, params)]
      ensures r == replies.run
    {
      log := log + [Statement(sql, params)];
      r := replies.run;
    }

    /** The rows of a query, by the one column the caller reads. */
    method Select(sql: string, params: seq<Value>) returns (r: Result<seq<int>>)
      modifies this`log
      ensures log == old(log) + [Statement(sql, params)]
      ensures r == if sql == SeqIdSql then replies.seqRows else replies.changeRows
    {
      log := log + [Statement(sql, params)];
      r := if sql == SeqIdSql then replies.seqRows else replies.changeRows;
    }
  }

  /** A table entity: the table name it reports and its property values. */
  class Entity {
    const tableName: string
    var fields: map<string, Value>

    constructor (tableName: string, fields: map<string, Value>)
      ensures this.tableName == tableName && this.fields == fields
    {
      this.tableName := tableName;
      this.fields := fields;
    }
  }

  /** The entity after an insert: the key property set to the generated key,
      if one was written, and every other property as it was. */
  function WithKey(fields: map<string, Value>, keyColumn: Option<KeyColumn>, keyWrite: Option<int>): map<string, Value>
  {
    if keyWrite.Some? && keyColumn.Some? then fields[keyColumn.value.property := Scalar(Num(keyWrite.value))]
    else fields
  }

  /** An insert changes at most the key property of the entity. */
  lemma WithKeyTouchesOnlyTheKey(fields: map<string, Value>, keyColumn: Option<KeyColumn>, keyWrite: Option<int>,
                                 property: string)
    requires keyColumn.Some? ==> property != keyColumn.value.property
    ensures property in WithKey(fields, keyColumn, keyWrite) <==> property in fields
    ensures property in fields ==> WithKey(fields, keyColumn, keyWrite)[property] == fields[property]
  {
  }

  /** The mapper of one entity class, whose table is `tableName`. The
      statement provider that assembles the main statement is not part of
      this model: its answer is an input of each call (for insert and update,
      as a function of the `selective` flag). */
  class BaseTableMapper {
    const connection: Connection
    const tableName: string

    constructor (connection: Connection, tableName: string)
      ensures this.connection == connection && this.tableName == tableName
    {
      this.connection := connection;
      this.tableName := tableName;
    }

    method Insert(o: Entity, keyColumn: Option<KeyColumn>, getInsert: bool -> Result<SqlTemplate>)
      returns (r: Result<int>)
      modifies connection`log, o`fields
      ensures var out := InsertOutcome(connection.dialect, keyColumn, getInsert(false), connection.replies,
                                       o.tableName, tableName);
        r == out.result && connection.log == old(connection.log) + out.issued
        && o.fields == WithKey(old(o.fields), keyColumn, out.keyWrite)
    {
      r := InsertInternal(o, false, keyColumn, getInsert);
    }

    method InsertSelective(o: Entity, keyColumn: Option<KeyColumn>, getInsert: bool -> Result<SqlTemplate>)
      returns (r: Result<int>)
      modifies connection`log, o`fields
      ensures var out := InsertOutcome(connection.dialect, keyColumn, getInsert(true), connection.replies,
                                       o.tableName, tableName);
        r == out.result && connection.log == old(connection.log) + out.issued
        && o.fields == WithKey(old(o.fields), keyColumn, out.keyWrite)
    {
      r := InsertInternal(o, true, keyColumn, getInsert);
    }

    method UpdateByPrimaryKey(o: Entity, getUpdateByPk: bool -> Result<SqlTemplate>) returns (r: Result<int>)
      modifies connection`log
      ensures var out := CountOutcome(connection.dialect, getUpdateByPk(false), connection.replies, tableName);
        r == out.result && connection.log == old(connection.log) + out.issued
    {
      r := UpdateByPrimaryKeyInternal(o, false, getUpdateByPk);
    }

    method UpdateByPrimaryKeySelective(o: Entity, getUpdateByPk: bool -> Result<SqlTemplate>) returns (r: Result<int>)
      modifies connection`log
      ensures var out := CountOutcome(connection.dialect, getUpdateByPk(true), connection.replies, tableName);
        r == out.result && connection.log == old(connection.log) + out.issued
    {
      r := UpdateByPrimaryKeyInternal(o, true, getUpdateByPk);
    }

    /** deleteByExample, deleteByPrimaryKey and deleteByDynamicQuery: they
        differ only in which provider call assembles `assembled`; a failed
        assembly is a rejection with nothing issued. */
    method Delete(assembled: Result<SqlTemplate>) returns (r: Result<int>)
      modifies connection`log
      ensures var out := CountOutcome(connection.dialect, assembled, connection.replies, tableName);
        r == out.result && connection.log == old(connection.log) + out.issued
    {
      if assembled.Err? {
        return Err(assembled.error);
      }
      r := DeleteInternal(assembled.value.sqlExpression, assembled.value.params);
    }

    method InsertInternal(o: Entity, selective: bool, keyColumn: Option<KeyColumn>,
                          getInsert: bool -> Result<SqlTemplate>) returns (r: Result<int>)
      modifies connection`log, o`fields
      ensures var out := InsertOutcome(connection.dialect, keyColumn, getInsert(selective), connection.replies,
                                       o.tableName, tableName);
        r == out.result && connection.log == old(connection.log) + out.issued
        && o.fields == WithKey(old(o.fields), keyColumn, out.keyWrite)
    {
      var sqlParam := getInsert(selective);
      if sqlParam.Err? {
        return Err(sqlParam.error);
      }
      var result := connection.Run(sqlParam.value.sqlExpression, sqlParam.value.params);
      if result.Err? {
        return Err(result.error);
      }
      var insertId: int;
      var effectCount: int;
      if connection.dialect == MySql {
        if HasAutoKey(keyColumn) {
          insertId := result.value.insertId;
        }
        effectCount := result.value.affectedRows;
      } else if connection.dialect == Sqlite3 {
        if HasAutoKey(keyColumn) {
          var seqId := GetSeqIdForSqlite(o);
          if seqId.Err? {
            return Err(seqId.error);
          }
          insertId := seqId.value;
        }
        var count := GetEffectCountForSqlite();
        if count.Err? {
          return Err(count.error);
        }
        effectCount := count.value;
      } else {
        insertId := 0;
        effectCount := 0;
      }
      if HasAutoKey(keyColumn) {
        o.fields := o.fields[keyColumn.value.property := Scalar(Num(insertId))];
      }
      r := Ok(effectCount);
    }

    method UpdateByPrimaryKeyInternal(o: Entity, selective: bool, getUpdateByPk: bool -> Result<SqlTemplate>)
      returns (r: Result<int>)
      modifies connection`log
      ensures var out := CountOutcome(connection.dialect, getUpdateByPk(selective), connection.replies, tableName);
        r == out.result && connection.log == old(connection.log) + out.issued
    {
      var sqlParam := getUpdateByPk(selective);
      if sqlParam.Err? {
        return Err(sqlParam.error);
      }
      var result := connection.Run(sqlParam.value.sqlExpression, sqlParam.value.params);
      if result.Err? {
        return Err(result.error);
      }
      var effectCount: int;
      if connection.dialect == MySql {
        effectCount := result.value.affectedRows;
      } else if connection.dialect == Sqlite3 {
        var count := GetEffectCountForSqlite();
        if count.Err? {
          return Err(count.error);
        }
        effectCount := count.value;
      } else {
        effectCount := 0;
      }
      r := Ok(effectCount);
    }

    method DeleteInternal(plainSql: string, params: seq<Value>) returns (r: Result<int>)
      modifies connection`log
      ensures var out := CountOutcome(connection.dialect, Ok(SqlTemplate(plainSql, params)), connection.replies,
                                      tableName);
        r == out.result && connection.log == old(connection.log) + out.issued
    {
      var result := connection.Run(plainSql, params);
      if result.Err? {
        return Err(result.error);
      }
      var effectCount: int;
      if connection.dialect == MySql {
        effectCount := result.value.affectedRows;
      } else if connection.dialect == Sqlite3 {
        var count := GetEffectCountForSqlite();
        if count.Err? {
          return Err(count.error);
        }
        effectCount := count.value;
      } else {
        effectCount := 0;
      }
      r := Ok(effectCount);
    }

    method GetSeqIdForSqlite(o: Entity) returns (r: Result<int>)
      modifies connection`log
      ensures connection.log == old(connection.log) + [SeqIdStatement(o.tableName)]
      ensures r == SeqIdOf(connection.replies.seqRows)
    {
      var result := connection.Select(SeqIdSql, [Scalar(Str(o.tableName))]);
      if result.Err? {
        return Err(result.error);
      }
      if |result.value| > 0 {
        r := Ok(result.value[0]);
      } else {
        r := Err(PlainError(SeqIdMissingMessage));
      }
    }

    method GetEffectCountForSqlite() returns (r: Result<int>)
      modifies connection`log
      ensures connection.log == old(connection.log) + [ChangesStatement(tableName)]
      ensures r == ChangeCountOf(connection.replies.changeRows)
    {
      var sql := ChangesStatement(tableName).sql;
      assert sql[7] != SeqIdSql[7];
      var result := connection.Select(sql, []);
      if result.Err? {
        return Err(result.error);
      }
      if |result.value| > 0 {
        r := Ok(result.value[0]);
      } else {
        r := Err(TypeError(NoChangeRowMessage));
      }
    }
  }
}
