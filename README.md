# SQLiteStudio lexer and SQL export plugin in Dafny

This project models two parts of SQLiteStudio and proves properties of them.

**The low-level SQL lexer** (`lexerGetToken` and `isIdChar`) is SQLiteStudio's
port of the SQLite 3.7.15.2 tokenizer. Given a string, it classifies the token
that starts at position 0. It writes the token's Lemon terminal code (`TK3_*`)
and its coarse type (`Token::Type`) into a token object. In tolerant mode it
may also flag the token invalid. It returns the token's length.

- `lexer.dfy` (module `Lexer`) gives each rule as a pure function over the
  input, and `LeadingToken` is the whole rule set in the source's order. The
  imperative `LexerGetToken` and its `Lex*` helpers keep the source's loops
  and its mutable token object. Each is proved to leave the token and the
  returned length exactly as the matching rule function says.
- Reading past the end of the input yields NUL, as the source's `charAt` does.
- Qt's character classes, `doesObjectNeedWrapping` and the keyword table are
  parameters, bundled in an `Env` value.
- `lexer_props.dfy` (module `LexerProperties`) states what each rule
  promises: maximal runs, where comments and quoted tokens end, escapes,
  FLOAT versus INTEGER versus ILLEGAL, blob well-formedness, bind-parameter
  shapes, and keyword classification.

**The SQL export plugin** (`SqlExport`) writes a database, a single table or
the results of a query as a script of SQL statements.

- `sql_export.dfy` models the plugin as a class over an output log. Every
  `writeln` appends one line to the log.
- Each export method is proved to append exactly the lines of a pure function
  (`TableLines`, `QueryResultsLines`, `ObjectLines`, `HeaderLines`, ...). It is
  also proved to set the plugin's fields (`columns`, `theTable`,
  `generatedColumnIndexes`, `tableGeneratedColumns`) as that function says.
- `column_filter.dfy` proves that the column list and the value list of an
  INSERT stay aligned when generated columns are left out.
- `qt_text.dfy` models the QString operations the plugin uses: `trimmed`,
  `endsWith`, `toLower`, case-insensitive `contains` and `join`.
- `getFormatName` and `defaultFileExtension` are the constants
  `SqlExport.FormatName` ("SQL") and `SqlExport.DefaultFileExtension` ("sql").

The quoting helper (`wrapObjIfNeeded`), the SQL literal renderer
(`valueListToSqlList`), `commentAllSqlLines` and the code formatter are
functions the plugin calls but does not define. They are fields of an
`Externals` value, together with the application version string and the
codec name. The current time is a parameter of every method that writes the
header.

## Model

| member | source | states |
|---|---|---|
| Lexer.LexerGetToken | SQLiteStudio3/coreSQLiteStudio/parser/lexer_low_lev.cpp:21-476 | For a version other than 3, or tolerant mode with a non-tolerant token, the result is 0 and the token is untouched. Otherwise the returned length, lemon code and type are those of `LeadingToken`, and the invalid flag becomes set exactly when the rule flags it (it is never cleared). |
| Lexer.LeadingToken | SQLiteStudio3/coreSQLiteStudio/parser/lexer_low_lev.cpp:39-475 | Every token has length at least 1, and a token is flagged invalid only in tolerant mode. |
| Lexer.CharAt | SQLiteStudio3/coreSQLiteStudio/parser/lexer_low_lev.cpp:37-43 | Inside the input the character at the position is returned, and a non-NUL answer always comes from inside the input (NUL, a null QChar, past the end). |
| Lexer.IsIdChar | SQLiteStudio3/coreSQLiteStudio/parser/lexer_low_lev.cpp:16-19 | An identifier character is printable, not white space and needs no quoting, so NUL never is one. |
| Lexer.RunEnd | SQLiteStudio3/coreSQLiteStudio/parser/lexer_low_lev.cpp:43 | The scan of a character class stops at the first character outside the class, and every character before it is in the class. |
| Lexer.ScanRun | SQLiteStudio3/coreSQLiteStudio/parser/lexer_low_lev.cpp:43 | The source's `for (i = from; class(charAt(z, i)); i++)` loop ends exactly at `RunEnd`. |
| Lexer.QuoteEnd | SQLiteStudio3/coreSQLiteStudio/parser/lexer_low_lev.cpp:243-252 | The quoted-body loop stops at NUL, or at a delimiter that is not doubled, and everything before it is body text or a doubled delimiter. |
| Lexer.QuoteEndUnique | SQLiteStudio3/coreSQLiteStudio/parser/lexer_low_lev.cpp:243-252 | That stopping point is the only position where an escaped body can end. |
| Lexer.QuotedToken | SQLiteStudio3/coreSQLiteStudio/parser/lexer_low_lev.cpp:238-286 | A quoted token is closed (STRING for an apostrophe, ID otherwise), or open at the end of input: flagged invalid in tolerant mode, ILLEGAL otherwise. |
| Lexer.QuotedLengthUnique | SQLiteStudio3/coreSQLiteStudio/parser/lexer_low_lev.cpp:243-286 | Any length at which the quoted token is closed or open is the length the lexer returns. |
| Lexer.LexQuoted | SQLiteStudio3/coreSQLiteStudio/parser/lexer_low_lev.cpp:238-286 | The loop and branches leave the token as `QuotedToken` says. |
| Lexer.BlockCommentEnd | SQLiteStudio3/coreSQLiteStudio/parser/lexer_low_lev.cpp:115 | The comment scan stops at the first star-slash or at the end of the input. |
| Lexer.BlockCommentToken | SQLiteStudio3/coreSQLiteStudio/parser/lexer_low_lev.cpp:97-129 | A block comment either ends right after its first star-slash or reaches the end of the input, and it is flagged invalid exactly when it is unclosed in tolerant mode. |
| Lexer.LexBlockComment | SQLiteStudio3/coreSQLiteStudio/parser/lexer_low_lev.cpp:97-129 | The loop, including the early return for "/*" at the end, leaves the token as `BlockCommentToken` says. |
| Lexer.NumericEnd | SQLiteStudio3/coreSQLiteStudio/parser/lexer_low_lev.cpp:309-331 | The numeric part ends no earlier than the digits and the fraction. |
| Lexer.NumberToken | SQLiteStudio3/coreSQLiteStudio/parser/lexer_low_lev.cpp:300-339 | A hex literal is an INTEGER covering its hex digits. A decimal number is followed by a maximal run of identifier characters: any such character makes the token ILLEGAL. Otherwise it is FLOAT exactly when it has a fraction or an exponent. |
| Lexer.LexDecimal | SQLiteStudio3/coreSQLiteStudio/parser/lexer_low_lev.cpp:309-331 | The digit, fraction and exponent loops end at `NumericEnd`, and report FLOAT exactly when a fraction or an exponent was seen. |
| Lexer.LexNumber | SQLiteStudio3/coreSQLiteStudio/parser/lexer_low_lev.cpp:300-339 | The number loops leave the token as `NumberToken` says. |
| Lexer.BracketToken | SQLiteStudio3/coreSQLiteStudio/parser/lexer_low_lev.cpp:340-360 | A bracketed identifier is an ID that ends with its first ']'. An unclosed one stops at the first NUL, with no NUL before it, and is flagged invalid in tolerant mode, ILLEGAL otherwise. |
| Lexer.LexBracket | SQLiteStudio3/coreSQLiteStudio/parser/lexer_low_lev.cpp:340-360 | The loop leaves the token as `BracketToken` says. |
| Lexer.BindNameEnd | SQLiteStudio3/coreSQLiteStudio/parser/lexer_low_lev.cpp:375-408 | A parameter name is a maximal run of identifier characters and "::" pairs, a pair read only where its first ':' is not an identifier character; the scan stops where neither continues. |
| Lexer.BindNameEndUnique | SQLiteStudio3/coreSQLiteStudio/parser/lexer_low_lev.cpp:375-408 | Any name that stops where neither an identifier character nor "::" follows ends where the scan ends. |
| Lexer.BindToken | SQLiteStudio3/coreSQLiteStudio/parser/lexer_low_lev.cpp:368-416 | A named parameter token is never flagged invalid, not even in tolerant mode. |
| Lexer.LexBindParameter | SQLiteStudio3/coreSQLiteStudio/parser/lexer_low_lev.cpp:368-416 | The parameter loop, including the parenthesised suffix, leaves the token as `BindToken` says. |
| Lexer.BlobToken | SQLiteStudio3/coreSQLiteStudio/parser/lexer_low_lev.cpp:417-452 | A well-formed blob is a BLOB ending at its quote. Otherwise the token runs from the hex digits to the first quote (included) or the first NUL (excluded), with neither before it, and is flagged invalid in tolerant mode and ILLEGAL otherwise. |
| Lexer.LexBlob | SQLiteStudio3/coreSQLiteStudio/parser/lexer_low_lev.cpp:417-452 | The loops leave the token as `BlobToken` says. |
| Lexer.WordToken | SQLiteStudio3/coreSQLiteStudio/parser/lexer_low_lev.cpp:455-470 | A word is a maximal run of identifier characters. Its lemon code is the keyword table's answer, and it is a KEYWORD exactly when that answer is not TK3_ID. |
| LexerProperties.RunEndUnique | SQLiteStudio3/coreSQLiteStudio/parser/lexer_low_lev.cpp:43 | A maximal run can end at one place only. |
| LexerProperties.SpaceRun | SQLiteStudio3/coreSQLiteStudio/parser/lexer_low_lev.cpp:41-47 | Leading white space is one SPACE token covering the whole run. |
| LexerProperties.LineComment | SQLiteStudio3/coreSQLiteStudio/parser/lexer_low_lev.cpp:50-56 | A "--" comment runs up to, but not including, the newline or the end of the input. |
| LexerProperties.BlockComment | SQLiteStudio3/coreSQLiteStudio/parser/lexer_low_lev.cpp:97-129 | A block comment includes its closing star-slash. An unclosed one runs to the end of the input and is invalid exactly in tolerant mode. |
| LexerProperties.LessThan | SQLiteStudio3/coreSQLiteStudio/parser/lexer_low_lev.cpp:142-168 | '<' gives LE, NE, LSHIFT (two characters) or LT (one character), depending on the next character. |
| LexerProperties.GreaterThan | SQLiteStudio3/coreSQLiteStudio/parser/lexer_low_lev.cpp:169-189 | '>' gives GE, RSHIFT or GT. |
| LexerProperties.Bang | SQLiteStudio3/coreSQLiteStudio/parser/lexer_low_lev.cpp:190-204 | "!=" is NE. A '!' without '=' is an ILLEGAL token of length 2, even at the end of the input. |
| LexerProperties.Equals | SQLiteStudio3/coreSQLiteStudio/parser/lexer_low_lev.cpp:136-141 | "==" is a two-character EQ, a lone '=' a one-character EQ. |
| LexerProperties.Bar | SQLiteStudio3/coreSQLiteStudio/parser/lexer_low_lev.cpp:205-219 | "\|\|" is CONCAT, a lone '\|' is BITOR. |
| LexerProperties.Minus | SQLiteStudio3/coreSQLiteStudio/parser/lexer_low_lev.cpp:48-66 | "->" and "->>" are one PTR token, and '-' is otherwise MINUS unless a line comment starts. |
| LexerProperties.SingleCharacters | SQLiteStudio3/coreSQLiteStudio/parser/lexer_low_lev.cpp:67-236 | Each single-character operator and parenthesis maps to its own code with length 1. |
| LexerProperties.Quoted | SQLiteStudio3/coreSQLiteStudio/parser/lexer_low_lev.cpp:238-286 | Closed quotes give STRING or ID. Open ones give an invalid-flagged token in tolerant mode and ILLEGAL otherwise. The returned length is the only length at which the token is closed or open. |
| LexerProperties.ClosedIsNotOpen | SQLiteStudio3/coreSQLiteStudio/parser/lexer_low_lev.cpp:243-264 | A quoted token is never both closed and open at the same length. |
| LexerProperties.HexNumber | SQLiteStudio3/coreSQLiteStudio/parser/lexer_low_lev.cpp:304-308 | "0x" followed by a hex digit is an INTEGER covering every following hex digit. |
| LexerProperties.DecimalNumber | SQLiteStudio3/coreSQLiteStudio/parser/lexer_low_lev.cpp:287-339 | A decimal number (including ".5") is FLOAT exactly when it has a fraction or exponent. Trailing identifier characters are consumed and make it ILLEGAL. |
| LexerProperties.BlobLiteral | SQLiteStudio3/coreSQLiteStudio/parser/lexer_low_lev.cpp:417-452 | x'..' is a valid BLOB exactly when a quote closes it after an even number of hex digits, and the closing quote is part of the token. A malformed blob ends after the first quote past the hex digits, or at the first NUL. |
| LexerProperties.BlobDispatch | SQLiteStudio3/coreSQLiteStudio/parser/lexer_low_lev.cpp:417-420 | x' or X' reaches the blob rule. |
| LexerProperties.BlobShape | SQLiteStudio3/coreSQLiteStudio/parser/lexer_low_lev.cpp:421-451 | The blob rule's cases and the end of a malformed blob, stated on the rule alone. |
| LexerProperties.NumberedParameter | SQLiteStudio3/coreSQLiteStudio/parser/lexer_low_lev.cpp:361-367 | '?' and its digits are one VARIABLE token. |
| LexerProperties.NamedParameter | SQLiteStudio3/coreSQLiteStudio/parser/lexer_low_lev.cpp:368-416 | A '$', '@' or ':' parameter has the rule's shape: without an identifier character it is ILLEGAL and ends with the name; a name without '(' is a VARIABLE; a '(' suffix runs over characters that are not NUL, white space or ')', and is a VARIABLE including a closing ')', or ILLEGAL ending before NUL or white space. |
| LexerProperties.NamedParameterDispatch | SQLiteStudio3/coreSQLiteStudio/parser/lexer_low_lev.cpp:368-371 | '$', '@' and ':' reach the named-parameter rule. |
| LexerProperties.NamedParameterShape | SQLiteStudio3/coreSQLiteStudio/parser/lexer_low_lev.cpp:372-415 | The named-parameter rule has exactly that shape, stated on the rule alone. |
| LexerProperties.ParenthesisedParameter | SQLiteStudio3/coreSQLiteStudio/parser/lexer_low_lev.cpp:381-398 | A suffix runs to the first NUL, white space or ')'. It is a VARIABLE including the ')' when ')' stops it, and ILLEGAL ending at the stop otherwise. |
| LexerProperties.ParameterShapeUnique | SQLiteStudio3/coreSQLiteStudio/parser/lexer_low_lev.cpp:368-416 | Only the rule's own token has the named-parameter shape, so the shape fixes the code and the length. |
| LexerProperties.Word | SQLiteStudio3/coreSQLiteStudio/parser/lexer_low_lev.cpp:455-470 | A word is the maximal identifier run, classified by the keyword table. |
| LexerProperties.Illegal | SQLiteStudio3/coreSQLiteStudio/parser/lexer_low_lev.cpp:457-458 | A character that starts no rule is an ILLEGAL token of length 1. |
| LexerProperties.EmptyInput | SQLiteStudio3/coreSQLiteStudio/parser/lexer_low_lev.cpp:473-475 | The empty input yields an ILLEGAL token of length 1. |
| QtText.TrimmedDropsSpace | Plugins/SqlExport/sqlexport.cpp:267-270 | `trimmed()` removes the white space at both ends and nothing else. |
| QtText.TrimmedEnds | Plugins/SqlExport/sqlexport.cpp:267-270 | Trimmed text is no longer than the input and has no white space at either end. |
| QtText.TrimmedFixes | Plugins/SqlExport/sqlexport.cpp:267-270 | Text without white space at its ends is left unchanged by trimming. |
| QtText.TrimmedIdempotent | Plugins/SqlExport/sqlexport.cpp:267-270 | Trimming twice is trimming once. |
| QtText.ToLower | Plugins/SqlExport/sqlexport.cpp:276 | Lower-casing keeps the length and maps each character. |
| QtText.ToLowerIdempotent | Plugins/SqlExport/sqlexport.cpp:276 | Lower-casing twice is lower-casing once. |
| ColumnFilter.GeneratedIndexesExact | Plugins/SqlExport/sqlexport.cpp:112-125 | A position is collected exactly when its column is generated (case-insensitively). |
| ColumnFilter.GeneratedIndexesIncreasing | Plugins/SqlExport/sqlexport.cpp:112-125 | The positions come in increasing order. |
| ColumnFilter.KeptColumns | Plugins/SqlExport/sqlexport.cpp:112-125 | Every column is either kept or has its position collected. Kept names are columns of the table that are not generated. |
| ColumnFilter.DropPicksKept | Plugins/SqlExport/sqlexport.cpp:284-295 | Dropping the listed positions from a row leaves exactly the values at the unlisted positions, in order. |
| ColumnFilter.KeptIsDropGenerated | Plugins/SqlExport/sqlexport.cpp:112-125 | The kept column names are the column names with the collected positions dropped. |
| ColumnFilter.InsertAligned | Plugins/SqlExport/sqlexport.cpp:149-159 | For a full-width row, the k-th column of the INSERT and its k-th value come from the same table position. |
| ColumnFilter.GeneratedColumnNamesExact | Plugins/SqlExport/sqlexport.cpp:91-96 | A name is collected exactly when some column of that name has a GENERATED constraint. |
| ColumnFilter.GeneratedIndexes | Plugins/SqlExport/sqlexport.cpp:112-125 | Every collected position is a column of the table whose name is generated, and there are no more positions than columns. |
| ColumnFilter.DropPositions | Plugins/SqlExport/sqlexport.cpp:284-295 | Only values of the row are kept, never more than the row holds, and with no listed position inside the row the row is kept whole. |
| ColumnFilter.GeneratedColumnNames | Plugins/SqlExport/sqlexport.cpp:91-96 | Every collected name belongs to a column of the CREATE TABLE that has a GENERATED constraint. |
| SqlExport.ExportConfigFormName | Plugins/SqlExport/sqlexport.cpp:34-40 | Query-results mode has its own options form, and every other mode uses the common one. |
| SqlExport.NameForObject | Plugins/SqlExport/sqlexport.cpp:273-280 | The name is the (optionally wrapped) object name exactly when the database is null or "main" in any case. |
| SqlExport.NameQualification | Plugins/SqlExport/sqlexport.cpp:273-280 | The name is unqualified exactly when the database is null or "main" in any case. Otherwise it is the database, a dot and the name, each wrapped when asked. |
| SqlExport.Terminate | Plugins/SqlExport/sqlexport.cpp:262-271 | With the formatter off, a statement is either returned as given or trimmed with a ';' added. |
| SqlExport.FormatQuery | Plugins/SqlExport/sqlexport.cpp:262-271 | With the formatter off, a statement is either returned as given or trimmed with a ';' added. |
| SqlExport.TerminateEndsWithSemicolon | Plugins/SqlExport/sqlexport.cpp:262-271 | With the formatter off, the formatted statement ends in ';' after trimming. Its trimmed text is the input's trimmed text, with at most a ';' added. |
| SqlExport.TerminateIdempotent | Plugins/SqlExport/sqlexport.cpp:262-271 | Formatting twice without the formatter is formatting once. |
| SqlExport.TerminateKeepsTerminated | Plugins/SqlExport/sqlexport.cpp:267-268 | A statement that already ends in ';' is returned exactly as given, white space included. |
| SqlExport.FormatQueryTwice | Plugins/SqlExport/sqlexport.cpp:207 | The double formatting of trigger and view DDL changes nothing when the formatter is off. |
| SqlExport.Validated | Plugins/SqlExport/sqlexport.cpp:309-320 | The validated options are consistent. Only the two dependent flags may change, and only from on to off. |
| SqlExport.ValidatedFixesExactlyConsistent | Plugins/SqlExport/sqlexport.cpp:309-320 | Validation changes a configuration exactly when it is inconsistent, and gives each flag its exact new value. |
| SqlExport.ValidatedIdempotent | Plugins/SqlExport/sqlexport.cpp:301-321 | Validating twice is validating once. |
| SqlExport.QueryResultsDdlOrder | Plugins/SqlExport/sqlexport.cpp:61-74 | After BEGIN come no DDL lines unless CREATE TABLE is generated. Otherwise they are an empty line, then the optional DROP, then the CREATE TABLE. |
| SqlExport.Output.WriteLine | Plugins/SqlExport/sqlexport.cpp:82 | writeln appends exactly one line. |
| SqlExport.SqlExport.WriteHeader | Plugins/SqlExport/sqlexport.cpp:228-239 | The header: the version and time line and the encoding line, each framed by "--" lines. |
| SqlExport.SqlExport.WriteBegin | Plugins/SqlExport/sqlexport.cpp:241-244 | Appends BEGIN TRANSACTION. |
| SqlExport.SqlExport.WriteCommit | Plugins/SqlExport/sqlexport.cpp:246-250 | Appends an empty line and COMMIT TRANSACTION. |
| SqlExport.SqlExport.WriteFkDisable | Plugins/SqlExport/sqlexport.cpp:252-255 | Appends the pragma that turns foreign keys off. |
| SqlExport.SqlExport.WriteFkEnable | Plugins/SqlExport/sqlexport.cpp:257-260 | Appends the pragma that turns foreign keys on. |
| SqlExport.SqlExport.BeforeExportDatabase | Plugins/SqlExport/sqlexport.cpp:168-175 | Appends the header, foreign keys off and BEGIN. |
| SqlExport.SqlExport.AfterExport | Plugins/SqlExport/sqlexport.cpp:161-166 | Appends the commit, then foreign keys on. |
| SqlExport.SqlExport.ValidateOptions | Plugins/SqlExport/sqlexport.cpp:301-321 | Reports an empty query table as invalid in query-results mode only. The options become `Validated`, and nothing else changes. |
| SqlExport.SqlExport.RowToArgList | Plugins/SqlExport/sqlexport.cpp:282-299 | The row's literals, leaving out exactly the values at the generated positions when asked. |
| SqlExport.SqlExport.FilterColumns | Plugins/SqlExport/sqlexport.cpp:112-125 | The column loop yields the generated positions and the wrapped kept names. |
| SqlExport.SqlExport.ExportTable | Plugins/SqlExport/sqlexport.cpp:108-147 | Sets the column list, the generated positions and the qualified table name. Appends the preamble (single-table mode only), the comment, the optional DROP and the formatted DDL. |
| SqlExport.SqlExport.WriteTable | Plugins/SqlExport/sqlexport.cpp:129-145 | Appends the table's lines. |
| SqlExport.SqlExport.WriteTablePreamble | Plugins/SqlExport/sqlexport.cpp:129-134 | Appends the header, foreign keys off and BEGIN in single-table mode, and nothing otherwise. |
| SqlExport.SqlExport.WriteTableHeading | Plugins/SqlExport/sqlexport.cpp:136-143 | Appends the table comment with the unwrapped name, and the formatted DROP when asked. |
| SqlExport.SqlExport.ExportTableWithDefinition | Plugins/SqlExport/sqlexport.cpp:86-99 | Rebuilds the generated column names from the parsed CREATE TABLE, then exports the table filtering by them. |
| SqlExport.SqlExport.ExportVirtualTable | Plugins/SqlExport/sqlexport.cpp:101-106 | Exports the table filtering by the generated column names left from the previous export. |
| SqlExport.SqlExport.ExportTableRow | Plugins/SqlExport/sqlexport.cpp:149-159 | Appends one INSERT without the generated values. It is formatted unless only DDL is to be formatted. |
| SqlExport.SqlExport.BeforeExportQueryResults | Plugins/SqlExport/sqlexport.cpp:42-75 | Sets the column list and table name. Appends the header, the optional query comment, BEGIN and the optional DROP and CREATE TABLE. |
| SqlExport.SqlExport.WrapNames | Plugins/SqlExport/sqlexport.cpp:47-49 | Each display name wrapped, in order. |
| SqlExport.SqlExport.WriteQueryPrologue | Plugins/SqlExport/sqlexport.cpp:53-61 | Appends the header, the optional query comment and BEGIN. |
| SqlExport.SqlExport.WriteQueryTableDdl | Plugins/SqlExport/sqlexport.cpp:67-73 | Appends an empty line, the optional formatted DROP and the formatted CREATE TABLE. |
| SqlExport.SqlExport.ExportQueryResultsRow | Plugins/SqlExport/sqlexport.cpp:77-84 | Appends one unformatted INSERT with every value of the row. |
| SqlExport.SqlExport.ExportIndex | Plugins/SqlExport/sqlexport.cpp:177-192 | Appends the index comment, the optional formatted DROP INDEX and the formatted DDL. |
| SqlExport.SqlExport.ExportTrigger | Plugins/SqlExport/sqlexport.cpp:194-209 | Appends the trigger comment, the optional unformatted DROP TRIGGER and the DDL formatted twice. |
| SqlExport.SqlExport.ExportView | Plugins/SqlExport/sqlexport.cpp:211-226 | Appends the view comment, the optional unformatted DROP VIEW and the DDL formatted twice. |

## Left out

- `trimmed()` and `toLower()` in the plugin use ASCII white space and letters only. The lexer's character classes are a parameter (`Env`) over Dafny characters.
- Text is a sequence of Unicode code points, while the source lexes a QString one UTF-16 code unit (QChar) at a time. Outside the Basic Multilingual Plane one code point is two QChars, so there the source's lengths are larger, and its classes see two surrogate halves, which are not printable and so never identifier characters. The model does not capture this: on such text its token lengths and its identifier runs differ from the source's.
- The code formatter, `wrapObjIfNeeded`, `valueListToSqlList` (modelled value by value), `commentAllSqlLines` and `tr()` translation are outside this model. The first four are uninterpreted functions, and messages are the untranslated English text.
- The clock, the application version and the output codec are parameters. The file, the codec's encoding of the text and the `EXPORT_MANAGER` interface calls (visibility updates, validation reporting) are not modelled; `ValidateOptions` returns the validity it reports.
- `init`, `deinit`, `getConfig` and `standardOptionsToEnable` are left out. The codec option is always on, so the header always carries the encoding line.
- The `qCritical` log messages of `lexerGetToken` are left out, and only the returned 0 is kept.
- `token.dynamicCast<TolerantToken>()` is modelled by the token's `tolerant` field.
- `isTableExport()` is modelled as `exportMode == TableMode`.
- The formatter branch of `formatQuery` is an uninterpreted function of the statement text. It stands for formatting against the database being exported, which the source also passes to the formatter. The double formatting of trigger and view DDL is proved harmless only with the formatter off (`FormatQueryTwice`).
- Lexer.LexNumber and Lexer.LexBindParameter: these hold the FLOAT/ILLEGAL or VARIABLE/ILLEGAL decision in local variables and write the token once the scan ends, where the source writes the token inside its loops. The final token and length are the same.
- Lexer.BindToken: its own contract states only that the token is never flagged invalid. Its shape is `ParameterShape`, proved in `NamedParameterShape` and shown to determine the token in `ParameterShapeUnique`.
- The definition of `charAt` is not part of this model. `CharAt` follows its use in the lexer: a null QChar past the end of the input.
- The `QT_VERSION` alternatives in the lexer compare characters with 0 in both branches, and the model uses one test for NUL.
