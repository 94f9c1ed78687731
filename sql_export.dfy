/**
 * The SQL export plugin: it writes a database, a table or the results of a
 * query as a script of SQL statements. Every writeln of the plugin appends
 * one line to an output log. The helpers that quote identifiers
 * (wrapObjIfNeeded), render values as SQL literals (valueListToSqlList),
 * comment out query text (commentAllSqlLines) and pretty-print SQL (the
 * code formatter) are outside this model and fixed when the plugin is built.
 */
module SqlExport {
  import opened QtText
  import opened ColumnFilter

  datatype Option<T> = None | Some(value: T)

  /** The helpers the plugin calls but does not define. */
  datatype Externals = Externals(
    wrap: string -> string,             // wrapObjIfNeeded
    literal: SqlValue -> string,        // valueListToSqlList, value by value
    commentLines: string -> string,     // commentAllSqlLines
    formatter: string -> string,        // the code formatter for "sql"
    version: string,                    // SQLITESTUDIO->getVersionString()
    codecName: string)                  // the name of the output's text codec

  /** The export modes the plugin distinguishes. */
  datatype ExportMode = DatabaseMode | TableMode | QueryResultsMode | OtherMode

  /** The plugin's options (cfg.SqlExport.*). */
  datatype Config = Config(
    queryTable: string,
    generateCreateTable: bool,
    includeQueryInComments: bool,
    useFormatter: bool,
    formatDdlsOnly: bool,
    generateDrop: bool)

  /** A value of a result row (a QVariant holding an SQLite value). */
  datatype SqlValue =
    | NullValue
    | IntegerValue(i: int)
    | RealValue(r: real)
    | TextValue(s: string)
    | BlobValue(b: seq<bv8>)

  const FormatName: string := "SQL"
  const DefaultFileExtension: string := "sql"

  const BeginLine: string := "BEGIN TRANSACTION;"
  const CommitLine: string := "COMMIT TRANSACTION;"
  const FkDisableLine: string := "PRAGMA foreign_keys = off;"
  const FkEnableLine: string := "PRAGMA foreign_keys = on;"
  const CommentLine: string := "--"
  const GeneratedWithPrefix: string := "-- File generated with SQLiteStudio v"
  const OnInfix: string := " on "
  const EncodingPrefix: string := "-- Text encoding used: "
  const ResultsOfQueryLine: string := "-- Results of query:"
  const TablePrefix: string := "-- Table: "

  // ---------------------------------------------------------------------
  // Pure parts

  /** getExportConfigFormName: query results have their own options form. */
  function ExportConfigFormName(mode: ExportMode): (r: string)
    ensures r == "sqlExportQueryConfig" <==> mode == QueryResultsMode
    ensures r == "sqlExportCommonConfig" <==> mode != QueryResultsMode
  {
    if mode == QueryResultsMode then "sqlExportQueryConfig" else "sqlExportCommonConfig"
  }

  /** A database name that leaves objects unqualified: none at all (a null
      string) or "main" in any letter case. */
  predicate IsMainOrNone(database: Option<string>)
  {
    database.None? || ToLower(database.value) == "main"
  }

  /** getNameForObject: the object name, quoted when wrapped is set, and
      qualified by its database unless that is absent or "main". */
  function NameForObject(wrap: string -> string, database: Option<string>, name: string, wrapped: bool): (r: string)
    ensures IsMainOrNone(database) <==> r == (if wrapped then wrap(name) else name)
  {
    var obj := if wrapped then wrap(name) else name;
    if !database.None? && ToLower(database.value) != "main" then
      (if wrapped then wrap(database.value) else database.value) + "." + obj
    else obj
  }

  /** The name is left unqualified exactly when the database is absent or
      "main" in any case; otherwise it is the database name, a dot and the
      object name, each quoted when wrapped is set. */
  lemma NameQualification(wrap: string -> string, database: Option<string>, name: string, wrapped: bool)
    ensures var r, obj := NameForObject(wrap, database, name, wrapped), if wrapped then wrap(name) else name;
      && EndsWith(r, obj)
      && (IsMainOrNone(database) <==> r == obj)
      && (!IsMainOrNone(database) ==>
            var db := if wrapped then wrap(database.value) else database.value;
            && |r| == |db| + 1 + |obj|
            && r[..|db|] == db && r[|db|] == '.' && r[|db| + 1..] == obj)
  {
    var r, obj := NameForObject(wrap, database, name, wrapped), if wrapped then wrap(name) else name;
    if !IsMainOrNone(database) {
      var db := if wrapped then wrap(database.value) else database.value;
      assert r == db + "." + obj;
      assert r[|db| + 1..] == obj;
      assert r[|r| - |obj|..] == obj;
    }
  }

  /** formatQuery with the formatter off: a statement whose trimmed text
      lacks a final ';' is trimmed and gets one. */
  function Terminate(sql: string): (r: string)
    ensures r == sql || r == Trimmed(sql) + ";"
  {
    var t := Trimmed(sql);
    if |t| > 0 && t[|t| - 1] == ';' then sql else t + ";"
  }

  /** A terminated statement ends in ';' after trimming, and its trimmed
      text is the statement's own, with at most a ';' added. */
  lemma TerminateEndsWithSemicolon(sql: string)
    ensures EndsWith(Trimmed(Terminate(sql)), ";")
    ensures Trimmed(Terminate(sql)) == Trimmed(sql) || Trimmed(Terminate(sql)) == Trimmed(sql) + ";"
  {
    var t := Trimmed(sql);
    TrimmedEnds(sql);
    if !EndsWith(t, ";") {
      var u := t + ";";
      assert u[0] == if t == [] then ';' else t[0];
      assert u[|u| - 1] == ';';
      TrimmedFixes(u);
      assert u[|u| - 1..] == ";";
    }
  }

  /** Terminating a statement twice changes nothing more. */
  lemma TerminateIdempotent(sql: string)
    ensures Terminate(Terminate(sql)) == Terminate(sql)
  {
    TerminateEndsWithSemicolon(sql);
  }

  /** A statement that already ends in ';' (after trimming) is left exactly
      as it is, white space included. */
  lemma TerminateKeepsTerminated(sql: string)
    requires EndsWith(Trimmed(sql), ";")
    ensures Terminate(sql) == sql
  {
  }

  /** The two flags that depend on others agree with them: DDL-only
      formatting needs the formatter, and a query-results DROP needs its
      CREATE TABLE. */
  predicate Consistent(cfg: Config, mode: ExportMode)
  {
    && (!cfg.useFormatter ==> !cfg.formatDdlsOnly)
    && (mode == QueryResultsMode && !cfg.generateCreateTable ==> !cfg.generateDrop)
  }

  /** The flag updates of validateOptions: "format DDL only" needs the
      formatter, and in query-results mode "generate DROP" needs "generate
      CREATE TABLE". */
  function Validated(cfg: Config, mode: ExportMode): (r: Config)
    ensures Consistent(r, mode)
    ensures r.queryTable == cfg.queryTable && r.useFormatter == cfg.useFormatter
    ensures r.generateCreateTable == cfg.generateCreateTable
    ensures r.includeQueryInComments == cfg.includeQueryInComments
    ensures r.formatDdlsOnly ==> cfg.formatDdlsOnly
    ensures r.generateDrop ==> cfg.generateDrop
  {
    var c := if !cfg.useFormatter then cfg.(formatDdlsOnly := false) else cfg;
    if mode == QueryResultsMode && !c.generateCreateTable then c.(generateDrop := false) else c
  }

  /** validateOptions changes a configuration exactly when it is
      inconsistent, and only the flags it has to. */
  lemma ValidatedFixesExactlyConsistent(cfg: Config, mode: ExportMode)
    ensures Validated(cfg, mode) == cfg <==> Consistent(cfg, mode)
    ensures Validated(cfg, mode).formatDdlsOnly == (cfg.formatDdlsOnly && cfg.useFormatter)
    ensures Validated(cfg, mode).generateDrop ==
      (cfg.generateDrop && (mode != QueryResultsMode || cfg.generateCreateTable))
  {
  }

  /** Validating twice is validating once. */
  lemma ValidatedIdempotent(cfg: Config, mode: ExportMode)
    ensures Validated(Validated(cfg, mode), mode) == Validated(cfg, mode)
  {
    ValidatedFixesExactlyConsistent(Validated(cfg, mode), mode);
  }

  /** In query-results mode an empty table name for the INSERT statements
      is reported invalid; every other configuration is valid. */
  predicate QueryTableValid(cfg: Config, mode: ExportMode)
  {
    mode != QueryResultsMode || |cfg.queryTable| > 0
  }

  function DropTableDdl(name: string): string
  {
    "DROP TABLE IF EXISTS " + name + ";"
  }

  function DropIndexDdl(name: string): string
  {
    "DROP INDEX IF EXISTS " + name + ";"
  }

  function DropTriggerDdl(name: string): string
  {
    "DROP TRIGGER IF EXISTS " + name + ";"
  }

  function DropViewDdl(name: string): string
  {
    "DROP VIEW IF EXISTS " + name + ";"
  }

  function CreateTableDdl(table: string, columns: string): string
  {
    "CREATE TABLE " + table + " (" + columns + ");"
  }

  function InsertSql(table: string, columns: string, args: seq<string>): string
  {
    "INSERT INTO " + table + " (" + columns + ") VALUES (" + Join(args, ", ") + ");"
  }

  /** formatQuery: the formatter's output when it is enabled, otherwise
      the statement terminated by ';'. */
  function FormatQuery(ext: Externals, cfg: Config, sql: string): (r: string)
    ensures !cfg.useFormatter ==> r == sql || r == Trimmed(sql) + ";"
  {
    if cfg.useFormatter then ext.formatter(sql) else Terminate(sql)
  }

  /** With the formatter off, formatting twice is formatting once, so the
      double formatting of trigger and view DDL changes nothing. */
  lemma FormatQueryTwice(ext: Externals, cfg: Config, sql: string)
    requires !cfg.useFormatter
    ensures FormatQuery(ext, cfg, FormatQuery(ext, cfg, sql)) == FormatQuery(ext, cfg, sql)
    ensures EndsWith(Trimmed(FormatQuery(ext, cfg, sql)), ";")
  {
    TerminateIdempotent(sql);
    TerminateEndsWithSemicolon(sql);
  }

  /** The lines of writeHeader at the time now; the export plugin always
      enables the codec option, so the encoding line is always there. */
  function HeaderLines(ext: Externals, now: string): seq<string>
  {
    [ CommentLine,
      GeneratedWithPrefix + ext.version + OnInfix + now,
      CommentLine,
      EncodingPrefix + ext.codecName,
      CommentLine ]
  }

  /** valueListToSqlList */
  function SqlList(ext: Externals, values: seq<SqlValue>): seq<string>
  {
    Map(ext.literal, values)
  }

  /** What a single-table export writes first: the header, foreign keys
      off and BEGIN; nothing when the table is part of a larger export. */
  function TablePreamble(ext: Externals, mode: ExportMode, now: string): seq<string>
  {
    if mode == TableMode then HeaderLines(ext, now) + [FkDisableLine, BeginLine] else []
  }

  /** The table's comment and optional DROP. */
  function TableHeading(ext: Externals, cfg: Config, database: Option<string>, table: string): seq<string>
  {
    ["", TablePrefix + NameForObject(ext.wrap, database, table, false)]
    + (if cfg.generateDrop then [FormatQuery(ext, cfg, DropTableDdl(NameForObject(ext.wrap, database, table, true)))]
       else [])
  }

  /** The lines the four-argument exportTable writes. */
  function TableLines(ext: Externals, cfg: Config, mode: ExportMode, database: Option<string>,
                      table: string, ddl: string, now: string): seq<string>
  {
    TablePreamble(ext, mode, now) + TableHeading(ext, cfg, database, table) + [FormatQuery(ext, cfg, ddl)]
  }

  /** The lines beforeExportQueryResults writes up to BEGIN: the header
      and, when asked for, the query as a comment. */
  function QueryPrologue(ext: Externals, cfg: Config, query: string, now: string): seq<string>
  {
    HeaderLines(ext, now)
    + (if cfg.includeQueryInComments then [ResultsOfQueryLine, ext.commentLines(query), CommentLine] else [])
    + [BeginLine]
  }

  /** The DDL beforeExportQueryResults writes after BEGIN for the table
      the INSERTs go to. */
  function QueryTableDdl(ext: Externals, cfg: Config, table: string, columns: string): seq<string>
  {
    if !cfg.generateCreateTable then []
    else [""] + (if cfg.generateDrop then [FormatQuery(ext, cfg, DropTableDdl(table))] else [])
         + [FormatQuery(ext, cfg, CreateTableDdl(table, columns))]
  }

  /** The lines beforeExportQueryResults writes. */
  function QueryResultsLines(ext: Externals, cfg: Config, query: string, displayNames: seq<string>,
                             now: string): seq<string>
  {
    QueryPrologue(ext, cfg, query, now)
    + QueryTableDdl(ext, cfg, ext.wrap(cfg.queryTable), Join(Map(ext.wrap, displayNames), ", "))
  }

  /** The comment exportIndex, exportTrigger and exportView write before
      an object: an empty line and the object's unquoted name. */
  function ObjectHeading(ext: Externals, kind: ObjectKind, database: Option<string>, name: string): seq<string>
  {
    ["", kind.Label() + NameForObject(ext.wrap, database, name, false)]
  }

  /** The optional DROP of an object; only an index gets its DROP formatted. */
  function ObjectDrop(ext: Externals, cfg: Config, kind: ObjectKind, database: Option<string>,
                      name: string): seq<string>
  {
    var drop := kind.DropDdl(NameForObject(ext.wrap, database, name, true));
    if !cfg.generateDrop then []
    else if kind == Index then [FormatQuery(ext, cfg, drop)]
    else [drop]
  }

  /** The object's DDL; triggers and views get it formatted twice. */
  function ObjectDdl(ext: Externals, cfg: Config, kind: ObjectKind, ddl: string): string
  {
    if kind == Index then FormatQuery(ext, cfg, ddl) else FormatQuery(ext, cfg, FormatQuery(ext, cfg, ddl))
  }

  /** The lines exportIndex, exportTrigger and exportView write. */
  function ObjectLines(ext: Externals, cfg: Config, kind: ObjectKind, database: Option<string>,
                       name: string, ddl: string): seq<string>
  {
    ObjectHeading(ext, kind, database, name) + ObjectDrop(ext, cfg, kind, database, name)
    + [ObjectDdl(ext, cfg, kind, ddl)]
  }

  datatype ObjectKind = Index | Trigger | View
  {
    function Label(): string
    {
      match this
      case Index => "-- Index: "
      case Trigger => "-- Trigger: "
      case View => "-- View: "
    }

    function DropDdl(name: string): string
    {
      match this
      case Index => DropIndexDdl(name)
      case Trigger => DropTriggerDdl(name)
      case View => DropViewDdl(name)
    }
  }

  /** The DDL lines of a query-results export follow BEGIN: none when
      CREATE TABLE is not generated, otherwise an empty line, the DROP when
      asked for, and the CREATE TABLE last. */
  lemma QueryResultsDdlOrder(ext: Externals, cfg: Config, query: string, displayNames: seq<string>, now: string)
    ensures var lines := QueryResultsLines(ext, cfg, query, displayNames, now);
      var b := if cfg.includeQueryInComments then 8 else 5;
      var table := ext.wrap(cfg.queryTable);
      var create := FormatQuery(ext, cfg, CreateTableDdl(table, Join(Map(ext.wrap, displayNames), ", ")));
      && lines[b] == BeginLine
      && (!cfg.generateCreateTable ==> |lines| == b + 1)
      && (cfg.generateCreateTable && !cfg.generateDrop ==> |lines| == b + 3 && lines[b + 2] == create)
      && (cfg.generateCreateTable && cfg.generateDrop ==>
            && |lines| == b + 4
            && lines[b + 2] == FormatQuery(ext, cfg, DropTableDdl(table))
            && lines[b + 3] == create)
  {
  }

  /** The output stream every writeln appends to. */
  class Output {
    var lines: seq<string>

    constructor ()
      ensures lines == []
    {
      lines := [];
    }

    /** writeln. */
    method WriteLine(line: string)
      modifies this
      ensures lines == old(lines) + [line]
    {
      lines := lines + [line];
    }
  }

  class SqlExport {
    const ext: Externals
    const out: Output

    var exportMode: ExportMode
    var cfg: Config
    var columns: string
    var theTable: string
    var tableGeneratedColumns: seq<string>
    var generatedColumnIndexes: seq<int>

    constructor (ext: Externals, exportMode: ExportMode, cfg: Config)
      ensures this.ext == ext && this.exportMode == exportMode && this.cfg == cfg
      ensures columns == "" && theTable == ""
      ensures tableGeneratedColumns == [] && generatedColumnIndexes == []
      ensures fresh(out) && out.lines == []
    {
      this.ext, this.exportMode, this.cfg := ext, exportMode, cfg;
      columns, theTable := "", "";
      tableGeneratedColumns, generatedColumnIndexes := [], [];
      out := new Output();
    }

    /** The fields a table export sets from its column names, given the
        generated columns it filters by. */
    ghost predicate TableFields(database: Option<string>, table: string, columnNames: seq<string>,
                                generated: seq<string>)
      reads this
    {
      && generatedColumnIndexes == GeneratedIndexes(columnNames, generated)
      && columns == Join(Map(ext.wrap, KeptColumns(columnNames, generated)), ", ")
      && theTable == NameForObject(ext.wrap, database, table, true)
    }

    method WriteHeader(now: string)
      modifies out
      ensures out.lines == old(out.lines) + HeaderLines(ext, now)
    {
      out.WriteLine(CommentLine);
      out.WriteLine(GeneratedWithPrefix + ext.version + OnInfix + now);
      out.WriteLine(CommentLine);
      out.WriteLine(EncodingPrefix + ext.codecName);
      out.WriteLine(CommentLine);
    }

    method WriteBegin()
      modifies out
      ensures out.lines == old(out.lines) + [BeginLine]
    {
      out.WriteLine(BeginLine);
    }

    method WriteCommit()
      modifies out
      ensures out.lines == old(out.lines) + ["", CommitLine]
    {
      out.WriteLine("");
      out.WriteLine(CommitLine);
    }

    method WriteFkDisable()
      modifies out
      ensures out.lines == old(out.lines) + [FkDisableLine]
    {
      out.WriteLine(FkDisableLine);
    }

    method WriteFkEnable()
      modifies out
      ensures out.lines == old(out.lines) + [FkEnableLine]
    {
      out.WriteLine(FkEnableLine);
    }

    /** beforeExportDatabase: header, foreign keys off, then the
        transaction begins. */
    method BeforeExportDatabase(database: string, now: string) returns (ok: bool)
      modifies out
      ensures ok
      ensures out.lines == old(out.lines) + HeaderLines(ext, now) + [FkDisableLine, BeginLine]
    {
      WriteHeader(now);
      WriteFkDisable();
      WriteBegin();
      return true;
    }

    /** afterExport: the transaction commits, then foreign keys are back
        on. */
    method AfterExport() returns (ok: bool)
      modifies out
      ensures ok
      ensures out.lines == old(out.lines) + ["", CommitLine, FkEnableLine]
    {
      WriteCommit();
      WriteFkEnable();
      return true;
    }

    /** validateOptions: reports whether the options are valid and fixes
        the dependent flags. */
    method ValidateOptions() returns (valid: bool)
      modifies this
      ensures valid == QueryTableValid(old(cfg), exportMode)
      ensures cfg == Validated(old(cfg), exportMode)
      ensures exportMode == old(exportMode) && columns == old(columns) && theTable == old(theTable)
      ensures tableGeneratedColumns == old(tableGeneratedColumns)
      ensures generatedColumnIndexes == old(generatedColumnIndexes)
    {
      valid := true;
      if exportMode == QueryResultsMode {
        valid := |cfg.queryTable| != 0;
      }
      var useFormatter := cfg.useFormatter;
      if !useFormatter {
        cfg := cfg.(formatDdlsOnly := false);
      }
      if exportMode == QueryResultsMode {
        var generateCreate := cfg.generateCreateTable;
        if !generateCreate {
          cfg := cfg.(generateDrop := false);
        }
      }
    }

    /** rowToArgList: the SQL literals of a row, leaving out the values at
        the generated columns' positions when honorGeneratedColumns is set. */
    method RowToArgList(row: seq<SqlValue>, honorGeneratedColumns: bool) returns (args: seq<string>)
      ensures args == SqlList(ext, if honorGeneratedColumns then DropPositions(row, generatedColumnIndexes) else row)
    {
      if honorGeneratedColumns {
        var filteredValues: seq<SqlValue> := [];
        var i := 0;
        for j := 0 to |row|
          invariant i == j
          invariant filteredValues == DropPositions(row[..j], generatedColumnIndexes)
        {
          assert row[..j + 1][..j] == row[..j];
          var value := row[j];
          var skip := i in generatedColumnIndexes;
          i := i + 1;
          if skip {
            continue;
          }
          filteredValues := filteredValues + [value];
        }
        assert row[..|row|] == row;
        return SqlList(ext, filteredValues);
      }
      return SqlList(ext, row);
    }

    /** The column loop of exportTable: the positions of the generated
        columns, and the quoted names of the others in table order. */
    method FilterColumns(columnNames: seq<string>, generated: seq<string>)
      returns (indexes: seq<int>, colList: seq<string>)
      ensures indexes == GeneratedIndexes(columnNames, generated)
      ensures colList == Map(ext.wrap, KeptColumns(columnNames, generated))
    {
      indexes := [];
      colList := [];
      var colIdx := 0;
      for j := 0 to |columnNames|
        invariant colIdx == j
        invariant indexes == GeneratedIndexes(columnNames[..j], generated)
        invariant colList == Map(ext.wrap, KeptColumns(columnNames[..j], generated))
      {
        var front, colName := columnNames[..j], columnNames[j];
        assert columnNames[..j + 1][..j] == front;
        if ContainsIgnoringCase(generated, colName) {
          assert GeneratedIndexes(columnNames[..j + 1], generated) == GeneratedIndexes(front, generated) + [j];
          assert KeptColumns(columnNames[..j + 1], generated) == KeptColumns(front, generated);
          indexes := indexes + [colIdx];
          colIdx := colIdx + 1;
          continue;
        }
        assert GeneratedIndexes(columnNames[..j + 1], generated) == GeneratedIndexes(front, generated);
        assert KeptColumns(columnNames[..j + 1], generated) == KeptColumns(front, generated) + [colName];
        MapAppend(ext.wrap, KeptColumns(front, generated), colName);
        colList := colList + [ext.wrap(colName)];
        colIdx := colIdx + 1;
      }
      assert columnNames[..|columnNames|] == columnNames;
    }

    /** The four-argument exportTable: filters the generated columns out of
        the column list, remembers their positions, and writes the table's
        comment, optional DROP and DDL (after the header, foreign keys off
        and BEGIN when a single table is exported). */
    method ExportTable(database: Option<string>, table: string, columnNames: seq<string>, ddl: string,
                       now: string) returns (ok: bool)
      modifies this, out
      ensures ok
      ensures TableFields(database, table, columnNames, tableGeneratedColumns)
      ensures out.lines == old(out.lines) + TableLines(ext, cfg, exportMode, database, table, ddl, now)
      ensures exportMode == old(exportMode) && cfg == old(cfg)
      ensures tableGeneratedColumns == old(tableGeneratedColumns)
    {
      var colList;
      generatedColumnIndexes, colList := FilterColumns(columnNames, tableGeneratedColumns);
      columns := Join(colList, ", ");
      WriteTable(database, table, ddl, now);
      theTable := NameForObject(ext.wrap, database, table, true);
      return true;
    }

    /** The writes of exportTable, with theTable as it sets it. */
    method WriteTable(database: Option<string>, table: string, ddl: string, now: string)
      modifies out
      ensures out.lines == old(out.lines) + TableLines(ext, cfg, exportMode, database, table, ddl, now)
    {
      WriteTablePreamble(now);
      WriteTableHeading(database, table);
      out.WriteLine(FormatQuery(ext, cfg, ddl));
    }

    /** The header, foreign keys off and BEGIN, when a single table is
        exported. */
    method WriteTablePreamble(now: string)
      modifies out
      ensures out.lines == old(out.lines) + TablePreamble(ext, exportMode, now)
    {
      if exportMode == TableMode {
        WriteHeader(now);
        WriteFkDisable();
        WriteBegin();
      }
    }

    /** The table's comment and, when asked for, its DROP. */
    method WriteTableHeading(database: Option<string>, table: string)
      modifies out
      ensures out.lines == old(out.lines) + TableHeading(ext, cfg, database, table)
    {
      var fullName := NameForObject(ext.wrap, database, table, false);
      out.WriteLine("");
      out.WriteLine(TablePrefix + fullName);
      var dropName := NameForObject(ext.wrap, database, table, true);
      if cfg.generateDrop {
        out.WriteLine(FormatQuery(ext, cfg, DropTableDdl(dropName)));
      }
    }

    /** The six-argument exportTable: rebuilds the generated columns from
        the parsed CREATE TABLE, then exports the table. */
    method ExportTableWithDefinition(database: Option<string>, table: string, columnNames: seq<string>,
                                     ddl: string, createTable: seq<ColumnDef>, now: string)
      returns (ok: bool)
      modifies this, out
      ensures ok
      ensures tableGeneratedColumns == GeneratedColumnNames(createTable)
      ensures TableFields(database, table, columnNames, GeneratedColumnNames(createTable))
      ensures out.lines == old(out.lines) + TableLines(ext, cfg, exportMode, database, table, ddl, now)
      ensures exportMode == old(exportMode) && cfg == old(cfg)
    {
      tableGeneratedColumns := [];
      for j := 0 to |createTable|
        invariant tableGeneratedColumns == GeneratedColumnNames(createTable[..j])
        invariant out.lines == old(out.lines)
        invariant exportMode == old(exportMode) && cfg == old(cfg)
      {
        assert createTable[..j + 1][..j] == createTable[..j];
        var col := createTable[j];
        if col.generated {
          tableGeneratedColumns := tableGeneratedColumns + [col.name];
        }
      }
      assert createTable[..|createTable|] == createTable;
      ok := ExportTable(database, table, columnNames, ddl, now);
    }

    /** exportVirtualTable: exports the table without touching the
        generated columns, so it filters by those of the table exported
        before it. */
    method ExportVirtualTable(database: Option<string>, table: string, columnNames: seq<string>,
                              ddl: string, now: string) returns (ok: bool)
      modifies this, out
      ensures ok
      ensures tableGeneratedColumns == old(tableGeneratedColumns)
      ensures TableFields(database, table, columnNames, old(tableGeneratedColumns))
      ensures out.lines == old(out.lines) + TableLines(ext, cfg, exportMode, database, table, ddl, now)
      ensures exportMode == old(exportMode) && cfg == old(cfg)
    {
      ok := ExportTable(database, table, columnNames, ddl, now);
    }

    /** exportTableRow: one INSERT into the exported table, formatted
        unless only DDL is to be formatted. */
    method ExportTableRow(row: seq<SqlValue>) returns (ok: bool)
      modifies out
      ensures ok
      ensures var sql := InsertSql(theTable, columns, SqlList(ext, DropPositions(row, generatedColumnIndexes)));
        out.lines == old(out.lines) + [if cfg.formatDdlsOnly then sql else FormatQuery(ext, cfg, sql)]
    {
      var argList := RowToArgList(row, true);
      var sql := InsertSql(theTable, columns, argList);
      if !cfg.formatDdlsOnly {
        sql := FormatQuery(ext, cfg, sql);
      }
      out.WriteLine(sql);
      return true;
    }

    /** beforeExportQueryResults: the column list and table for the
        INSERTs, then header, optional query comment, BEGIN and the
        optional DROP and CREATE TABLE. */
    method BeforeExportQueryResults(query: string, displayNames: seq<string>, now: string)
      returns (ok: bool)
      modifies this, out
      ensures ok
      ensures columns == Join(Map(ext.wrap, displayNames), ", ")
      ensures theTable == ext.wrap(cfg.queryTable)
      ensures out.lines == old(out.lines) + QueryResultsLines(ext, cfg, query, displayNames, now)
      ensures exportMode == old(exportMode) && cfg == old(cfg)
      ensures tableGeneratedColumns == old(tableGeneratedColumns)
      ensures generatedColumnIndexes == old(generatedColumnIndexes)
    {
      var colDefs := WrapNames(displayNames);
      assert colDefs == Map(ext.wrap, displayNames);
      columns := Join(colDefs, ", ");
      WriteQueryPrologue(query, now);
      theTable := ext.wrap(cfg.queryTable);
      if !cfg.generateCreateTable {
        return true;
      }
      WriteQueryTableDdl(theTable, columns);
      return true;
    }

    /** The column loop of beforeExportQueryResults: every display name
        quoted, in order. */
    method WrapNames(displayNames: seq<string>) returns (colDefs: seq<string>)
      ensures |colDefs| == |displayNames|
      ensures forall k :: 0 <= k < |displayNames| ==> colDefs[k] == ext.wrap(displayNames[k])
    {
      colDefs := [];
      for j := 0 to |displayNames|
        invariant |colDefs| == j
        invariant forall k :: 0 <= k < j ==> colDefs[k] == ext.wrap(displayNames[k])
      {
        colDefs := colDefs + [ext.wrap(displayNames[j])];
      }
    }

    /** The writes of beforeExportQueryResults up to BEGIN. */
    method WriteQueryPrologue(query: string, now: string)
      modifies out
      ensures out.lines == old(out.lines) + QueryPrologue(ext, cfg, query, now)
    {
      WriteHeader(now);
      if cfg.includeQueryInComments {
        out.WriteLine(ResultsOfQueryLine);
        out.WriteLine(ext.commentLines(query));
        out.WriteLine(CommentLine);
      }
      WriteBegin();
    }

    /** The writes of beforeExportQueryResults after BEGIN, once CREATE
        TABLE is to be generated. */
    method WriteQueryTableDdl(table: string, columns: string)
      modifies out
      requires cfg.generateCreateTable
      ensures out.lines == old(out.lines) + QueryTableDdl(ext, cfg, table, columns)
    {
      var ddl := CreateTableDdl(table, columns);
      out.WriteLine("");
      if cfg.generateDrop {
        out.WriteLine(FormatQuery(ext, cfg, DropTableDdl(table)));
      }
      out.WriteLine(FormatQuery(ext, cfg, ddl));
    }

    /** exportQueryResultsRow: one INSERT with every value of the row,
        never formatted. */
    method ExportQueryResultsRow(row: seq<SqlValue>) returns (ok: bool)
      modifies out
      ensures ok
      ensures out.lines == old(out.lines) + [InsertSql(theTable, columns, SqlList(ext, row))]
    {
      var argList := RowToArgList(row, false);
      out.WriteLine(InsertSql(theTable, columns, argList));
      return true;
    }

    /** exportIndex */
    method ExportIndex(database: Option<string>, name: string, ddl: string) returns (ok: bool)
      modifies out
      ensures ok
      ensures out.lines == old(out.lines) + ObjectLines(ext, cfg, Index, database, name, ddl)
    {
      var index := NameForObject(ext.wrap, database, name, false);
      out.WriteLine("");
      out.WriteLine("-- Index: " + index);
      assert out.lines == old(out.lines) + ObjectHeading(ext, Index, database, name);
      var fullName := NameForObject(ext.wrap, database, name, true);
      if cfg.generateDrop {
        out.WriteLine(FormatQuery(ext, cfg, DropIndexDdl(fullName)));
      }
      assert out.lines == old(out.lines) + ObjectHeading(ext, Index, database, name)
        + ObjectDrop(ext, cfg, Index, database, name);
      out.WriteLine(FormatQuery(ext, cfg, ddl));
      return true;
    }

    /** exportTrigger */
    method ExportTrigger(database: Option<string>, name: string, ddl: string) returns (ok: bool)
      modifies out
      ensures ok
      ensures out.lines == old(out.lines) + ObjectLines(ext, cfg, Trigger, database, name, ddl)
    {
      var trig := NameForObject(ext.wrap, database, name, false);
      out.WriteLine("");
      out.WriteLine("-- Trigger: " + trig);
      assert out.lines == old(out.lines) + ObjectHeading(ext, Trigger, database, name);
      var fullName := NameForObject(ext.wrap, database, name, true);
      if cfg.generateDrop {
        out.WriteLine(DropTriggerDdl(fullName));
      }
      assert out.lines == old(out.lines) + ObjectHeading(ext, Trigger, database, name)
        + ObjectDrop(ext, cfg, Trigger, database, name);
      out.WriteLine(FormatQuery(ext, cfg, FormatQuery(ext, cfg, ddl)));
      return true;
    }

    /** exportView */
    method ExportView(database: Option<string>, name: string, ddl: string) returns (ok: bool)
      modifies out
      ensures ok
      ensures out.lines == old(out.lines) + ObjectLines(ext, cfg, View, database, name, ddl)
    {
      var view := NameForObject(ext.wrap, database, name, false);
      out.WriteLine("");
      out.WriteLine("-- View: " + view);
      assert out.lines == old(out.lines) + ObjectHeading(ext, View, database, name);
      var fullName := NameForObject(ext.wrap, database, name, true);
      if cfg.generateDrop {
        out.WriteLine(DropViewDdl(fullName));
      }
      assert out.lines == old(out.lines) + ObjectHeading(ext, View, database, name)
        + ObjectDrop(ext, cfg, View, database, name);
      out.WriteLine(FormatQuery(ext, cfg, FormatQuery(ext, cfg, ddl)));
      return true;
    }
  }
}
