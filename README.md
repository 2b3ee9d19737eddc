# Pre-DateGrip backend core, modelled in Dafny

Pre-DateGrip is a desktop SQL client. Its C++ backend (namespace
`velocitydb`) answers JSON requests from the user interface by talking to
SQL Server, PostgreSQL and MySQL over ODBC. Around that plumbing sits a set
of sequential, self-contained pieces. This project models those pieces
and proves what they promise. Each source file is its own Dafny module.
Code that mutates objects in place becomes a class with `modifies` frames.
Loops become methods with invariants, proved against specification
functions. Pure expressions become functions and lemmas.

The model falls into five groups.

1. **SQL and identifier text.**
   - `SqlValidation`: bracket-identifier validation, quoting, unquoting, `schema.table` splitting, and SQL string and LIKE escaping. The main results are that quoting a name reads back as that name, and that escaping doubles every quote and can be undone.
   - `SqlParser`: trimming, upper-casing and statement splitting on `;`. It also covers the `USE` statement matcher, database-name extraction and the read-only classification.
   - `JsonUtils`: the JSON string escape, following section 7 of RFC 8259. It also covers the success and error envelopes and the array and row-array builders. Each comes with read-back lemmas: the text written for a value parses back to that value.
   - `ConnectionUtils` and `ConnectionPools`: ODBC attribute-value bracing, `host,port` splitting, the connection-string builders, the default ports, and connection-parameter and SSH tunnel field mapping.
   - The query-text builders of the request handlers: pagination, the row-count wrapper, the execution-plan wrapper, table DDL, the result-cache key and eligibility rule, and the synthetic result of a `USE` statement. These live in `QueryProviders`, `SchemaProviders`, `DatabaseContexts` and `ResultSets`.
2. **The asynchronous query task table** (`AsyncExecutor`).
   - Query ids are generated from a counter. Each task moves through Pending, Running, Completed, Failed and Cancelled.
   - Background completion is an explicit action, and time is a parameter.
   - Proved: the cancel, remove, active-listing and throttled eviction rules, and that a completion overwrites a cancellation.
3. **Connections.**
   - `ConnectionRegistries`: the `conn_N` registry with its monotonic counter and tunnel map. Tunnels are torn down before drivers.
   - `SqlServerDrivers`: the driver lifecycle, with ODBC return codes as parameters.
   - `ConnectionProviders`: the connect and disconnect orchestration. The registry changes only when both connects succeed.
   - `TransactionProviders` and `DatabaseContexts`: the transaction-manager map, and the context's query, pagination, database-list and DDL handlers.
4. **The A5:ER diagram text parser and DDL generator.**
   - `A5erUtils`: the `\q` unescape.
   - `A5erParser`: section splitting, the quoted-CSV field reader, `$BBGGRR` to `#RRGGBB` colour conversion, cardinality resolution with the parent/child swap, and the entity, index and relation readers.
   - `A5erDdl`: type mapping and the `CREATE TABLE` text with its comma rules.
   - `ErDiagramParserFactory`: the extension-based parser lookup.
5. **Settings, session, bookmarks and releases.**
   - `SettingsManagers`: connection-profile list operations, namely append, replace-first and remove-all, together with the secret fields and their clearing rules.
   - `SessionManagers`: editor-tab list operations and the window, panel and auto-save state.
   - `SettingsProviders` and `SettingsContexts`: partial-update merges with the 64-bit to `int` clamp, profile upsert, and session rebuilding.
   - `IoProviders`: bookmark upsert and delete.
   - `Releases`: the release script's tag filtering, version bump, commit-line parsing, categorisation and release notes.

Shared helpers live in `Wrappers` (`Option`, `Result`), `Strings` (joins,
splits, searches and character-wise escaping), `Lists` (the list
operations the settings code applies to profiles, tabs and bookmarks) and
`Requests` (a request document as a map of optional typed fields).

Everything the code reaches outside itself is a parameter. This covers
ODBC outcomes, the Win32 alphanumeric test, the credential protector, the
XML reader, clock ticks, and the output of git. Default-constructed records
are passed as a `blank` parameter.

Two behaviours of the code are easy to misread:
- The single-statement path of the asynchronous executor runs the text as
  one query. It has no special case for `USE`.
- The execution-plan text skips leading empty cells. It does not join
  every cell.

## Model

| member | source | states |
|---|---|---|
| Lists.ReplaceFirst | backend/utils/settings_manager.cpp:83-88 | the list keeps its length; the first element that matches, and only it, is replaced; without a match nothing changes |
| Lists.FindFirstReplace | backend/utils/settings_manager.cpp:83-88 | after replacing by an element with the same id, the first match is at the same place and holds the new element |
| Lists.RemoveAllMembers | backend/utils/settings_manager.cpp:90-93 | an element is kept exactly when it was in the list and does not match |
| Lists.FindFirstRemoved | backend/utils/settings_manager.cpp:90-93 | after removal nothing matches, so a removed id is no longer found |
| Lists.RemoveAllIdempotent | backend/utils/settings_manager.cpp:90-93 | removing the same id twice is the same as removing it once |
| Lists.RemoveAllAbsent | backend/utils/settings_manager.cpp:90-93 | removing an id that is not there changes nothing |
| ResultSets.UseResult | backend/providers/query_provider.cpp:63-67 | the result of a `USE` statement: one non-nullable column `Message`, one row "Database changed to <name>", no affected rows |
| SqlParser.Trim | backend/parsers/sql_parser.cpp:10-17 | the trimmed text is no longer than the input and starts and ends with a non-space character unless it is empty |
| SqlParser.TrimUnique | backend/parsers/sql_parser.cpp:10-17 | cutting only white space from both ends and keeping a piece that starts and ends with non-space yields exactly `trim`'s result |
| SqlParser.TrimIdempotent | backend/parsers/sql_parser.cpp:10-17 | trimming twice is trimming once |
| SqlParser.TrimUpper | backend/parsers/sql_parser.cpp:10-22 | trimming and upper-casing commute |
| SqlParser.UseSpanOf | backend/parsers/sql_parser.cpp:41-46 | a match of the `USE` pattern starts with the keyword in any case and captures a group inside the text |
| SqlParser.UseScanOk | backend/parsers/sql_parser.cpp:41-46 | every captured group is well formed: an optional `[`, a non-empty run of word characters, an optional `]` |
| SqlParser.ParseSql | backend/parsers/sql_parser.cpp:25-86 | the original text is kept; the kind is EMPTY exactly when the trimmed text is empty; only a `USE` statement carries a database name |
| SqlParser.KeywordKindExact | backend/parsers/sql_parser.cpp:59-83 | the keyword chain yields a kind exactly when the text starts with that kind's keyword, so the order of the tests does not matter |
| SqlParser.ParseSqlKeyword | backend/parsers/sql_parser.cpp:25-86 | a statement is SELECT/INSERT/…/ROLLBACK exactly when its trimmed upper-cased text starts with that keyword |
| SqlParser.UseDatabaseShape | backend/parsers/sql_parser.cpp:46-55 | the database name of a `USE` statement is non-empty and holds no white space and no `;` |
| SqlParser.UseStatementNames | backend/parsers/sql_parser.cpp:88-96 | `use name`, `USE [name];` and the like are `USE` statements whose extracted name is exactly `name`, brackets removed |
| SqlParser.ParseSqlCaseInsensitive | backend/parsers/sql_parser.cpp:25-86 | upper-casing a statement never changes its kind |
| SqlParser.LowerUpperPrefix | backend/parsers/sql_parser.cpp:98-108 | the byte-wise case-insensitive prefix test agrees with testing the upper-cased text |
| SqlParser.WithIsOther | backend/parsers/sql_parser.cpp:59-83 | a statement beginning with `WITH` is classified OTHER |
| SqlParser.ReadOnlyAgreesWithParse | backend/parsers/sql_parser.cpp:98-114 | every SELECT is read-only; any other read-only statement is a `WITH` statement of kind OTHER that contains none of INSERT/UPDATE/DELETE/MERGE |
| SqlParser.SplitStatements | backend/parsers/sql_parser.cpp:116-124 | the loop yields the trimmed non-empty `;`-separated pieces in order (the `Statements` specification) |
| SqlParser.StatementsWellFormed | backend/parsers/sql_parser.cpp:116-124 | every split statement is non-empty, already trimmed and free of `;` |
| SqlParser.StatementsJoin | backend/parsers/sql_parser.cpp:116-124 | splitting a `;`-joined list of such statements gives the list back |
| SqlValidation.QuotePartRoundTrip | backend/utils/sql_validation.h:25-55 | unquoting a quoted part gives it back; a quoted non-empty part is bracketed and one longer per `]` plus the two brackets |
| SqlValidation.QuoteSinglePart | backend/utils/sql_validation.h:41-55 | the loop builds the quoted part; it unquotes back to the input, is empty exactly for the empty part, else bracketed with each `]` doubled |
| SqlValidation.UnquoteSinglePart | backend/utils/sql_validation.h:26-38 | the loop computes the unquoted part: never longer than the input, and a part not enclosed in brackets is returned as is |
| SqlValidation.IsValidIdentifier | backend/utils/sql_validation.h:59-97 | the scan accepts exactly the identifiers of the validity specification, and only names of 1 to 128 units |
| SqlValidation.PlainIdentifierValid | backend/utils/sql_validation.h:59-97 | a name of 1 to 128 letters, digits, `_` and `.` is valid |
| SqlValidation.DisallowedCharRejected | backend/utils/sql_validation.h:90-94 | any other character outside brackets (`;`, a quote, a space) makes the name invalid |
| SqlValidation.EmptyBracketRejected | backend/utils/sql_validation.h:76-86 | an empty bracket pair `[]` makes the name invalid |
| SqlValidation.UnclosedBracketRejected | backend/utils/sql_validation.h:96 | a bracket never closed makes the name invalid |
| SqlValidation.UnquoteBracketIdentifier | backend/utils/sql_validation.h:100-129 | the scan reassembles, joined by `.`, the unquoted parts cut at dots outside brackets |
| SqlValidation.ScanCharacter | backend/utils/sql_validation.h:105-123 | one step of that scan keeps where the current part ends and the reassembly still to come |
| SqlValidation.QuoteBracketIdentifier | backend/utils/sql_validation.h:132-145 | the loop joins the quoted `.`-separated parts with `.` |
| SqlValidation.UnquoteQuotedParts | backend/utils/sql_validation.h:100-145 | dots inside brackets are no separators: quoted parts joined by dots read back as the same parts joined by dots |
| SqlValidation.QuoteUnquote | backend/utils/sql_validation.h:100-145 | quoting then unquoting gives back the identifier without its leading dots |
| SqlValidation.QuoteRoundTrip | backend/utils/sql_validation.h:131-145 | unquoting inverts quoting for every identifier that does not start with a dot |
| SqlValidation.LeadingDotLost | backend/utils/sql_validation.h:118-120 | a leading empty part is dropped: `.a` quotes to `.[a]`, which reads back as `a` |
| SqlValidation.QuotedIdentifierValid | backend/utils/sql_validation.h:59-145 | quoting any non-empty name within the length limit yields an identifier the validator accepts |
| SqlValidation.NoDotUnquoteUnchanged | backend/utils/sql_validation.h:26-28 | a name without dots whose brackets do not enclose it whole (`[noclose`, `noopen]`) is left unchanged |
| SqlValidation.SplitSchemaTable | backend/utils/sql_validation.h:153-158 | with a dot, schema `.` name is the unquoted text and the schema holds no dot; without one, the default schema and the whole unquoted text |
| SqlValidation.SplitQuotedSchemaTable | backend/utils/sql_validation.h:132-158 | a quoted `schema.table` splits back into its schema and table, even when the table name holds dots or brackets |
| SqlValidation.SplitQuotedTableOnly | backend/utils/sql_validation.h:132-158 | a quoted single name lands in the default schema |
| SqlValidation.EscapeSqlString | backend/utils/sql_validation.h:161-171 | every `'` doubled and nothing else changed: one longer per quote, undoubling restores the input, a quote-free text is unchanged |
| SqlValidation.LikeEscapeRoundTrip | backend/utils/sql_validation.h:175-187 | the escaped LIKE pattern matches exactly the original text |
| SqlValidation.LikeEscapeNoWildcard | backend/utils/sql_validation.h:175-187 | every `%` and `_` in the escaped pattern sits inside a one-character class and is no wildcard |
| SqlValidation.EscapeLikePattern | backend/utils/sql_validation.h:175-187 | the loop builds the escaped pattern, which reads back as the literal input |
| JsonUtils.EscapeString | backend/utils/json_utils.cpp:19-63 | the loop produces the JSON escape of the text, character by character |
| JsonUtils.EscapeIdentity | backend/utils/json_utils.cpp:21-24 | text with nothing to escape is returned unchanged |
| JsonUtils.EscapeCharChanges | backend/utils/json_utils.cpp:30-61 | a character is changed exactly when it needs escaping, and its escape starts with a backslash |
| JsonUtils.EscapeNoControl | backend/utils/json_utils.cpp:30-61 | no control character survives escaping |
| JsonUtils.ReadEscaped | backend/utils/json_utils.cpp:19-63 | wherever the escaped text stands between quotes, a JSON string reader returns exactly the original text and stops at the closing quote |
| JsonUtils.EscapeRoundTrip | backend/utils/json_utils.cpp:19-63 | the same round trip on its own |
| JsonUtils.ErrorMessageReadBack | backend/utils/json_utils.cpp:15-17 | the message of an error envelope reads back as a JSON string and the envelope closes right after it |
| JsonUtils.SuccessDataVerbatim | backend/utils/json_utils.cpp:11-13 | the data of a success envelope is exactly the text between its prefix and closing brace |
| JsonUtils.EnvelopesDiffer | backend/utils/json_utils.cpp:11-17 | no success envelope equals an error envelope |
| JsonUtils.AppendColumns | backend/utils/json_utils.cpp:65-77 | the loop appends the `columns` field: the column items joined by commas |
| JsonUtils.ColumnItemReadBack | backend/utils/json_utils.cpp:70-74 | a column's name reads back from its item as a JSON string, followed by its type |
| JsonUtils.AppendRow | backend/utils/json_utils.cpp:87-96 | the loop appends one row: its cells quoted and escaped, between brackets |
| JsonUtils.AppendResultSetFields | backend/utils/json_utils.cpp:79-103 | the columns, rows, affected-row count and time fields are appended in that order |
| JsonUtils.SerializeResultSet | backend/utils/json_utils.cpp:105-125 | the serializer writes the result object of the specification |
| JsonUtils.SerializeEnding | backend/utils/json_utils.cpp:118-122 | the serialized object opens with `{` and ends with the `cached` flag |
| JsonUtils.RowReadBack | backend/utils/json_utils.cpp:84-97 | every serialized row reads back as exactly its cell values, wherever it stands |
| JsonUtils.RowTextReadBack | backend/utils/json_utils.cpp:87-96 | a row's text alone reads back as the row |
| JsonUtils.RowsReadBack | backend/utils/json_utils.cpp:84-97 | the `rows` array reads back as exactly the rows, in order |
| JsonUtils.BuildArray | backend/utils/json_utils.h:36-47 | the loop writes the formatted items joined by commas, between brackets |
| JsonUtils.ArrayPieces | backend/utils/json_utils.h:36-47 | with comma-free non-empty formatters, the commas of the array separate exactly the formatted items |
| JsonUtils.BuildRowArray | backend/utils/json_utils.h:51-64 | the loop writes, comma-separated, exactly the rows with enough values, formatted |
| JsonUtils.RowArrayKeeps | backend/utils/json_utils.h:51-64 | a row is emitted iff it is one of the rows and has at least the minimum number of values |
| ConnectionUtils.DefaultDbPort | backend/database/connection_utils.h:17-26 | each database kind's default port is a TCP port |
| ConnectionUtils.SplitHostPort | backend/database/connection_utils.h:35-44 | without a comma the server and the default; otherwise the host is exactly the text before the first comma, and the port is the number after it when `from_chars` reads one in 1..65535, the default otherwise; a valid port whenever the default is one |
| ConnectionUtils.SplitHostPortJoin | backend/database/connection_utils.h:35-44 | splitting `host,port` gives back that host and port, whatever the default |
| ConnectionUtils.SplitHostPortFallback | backend/database/connection_utils.h:39-40 | a port text that does not parse or is out of 1..65535 leaves the default in place |
| ConnectionUtils.EscapeOdbcValue | backend/database/connection_utils.cpp:11-22 | the loop braces the value and doubles each `}`: one longer per `}` plus two, and undoubling the inside restores the value |
| ConnectionUtils.ReadAttributesBack | backend/database/connection_utils.cpp:11-54 | a list of `key=value;` attributes, braced values escaped, reads back attribute for attribute |
| ConnectionUtils.PostgresConnectionAttributes | backend/database/connection_utils.cpp:28-34 | a PostgreSQL string reads back as exactly driver, host, port, database, `Uid`, `Pwd`: no value can add or change an attribute |
| ConnectionUtils.MySqlConnectionAttributes | backend/database/connection_utils.cpp:35-41 | the same for MySQL with `User` and `Password` |
| ConnectionUtils.SqlServerConnectionAttributes | backend/database/connection_utils.cpp:42-50 | a SQL Server string reads back as the driver prefix followed by integrated security or exactly the user and password |
| ConnectionUtils.ToInt32 | backend/database/connection_utils.cpp:100-102 | the narrowing cast lands in the signed 32-bit range and keeps every value already in it |
| ConnectionUtils.SshParamsOf | backend/database/connection_utils.cpp:91-119 | SSH settings that are not enabled are exactly the defaults |
| ConnectionUtils.ExtractConnectionParams | backend/database/connection_utils.cpp:56-125 | success exactly when `server` and `database` are strings, carrying them; otherwise the missing-fields error |
| ConnectionUtils.ExtractConnectionId | backend/database/connection_utils.cpp:127-139 | success exactly when `connectionId` is a string, carrying it; otherwise the missing-id error |
| ConnectionUtils.ExtractRequestOf | backend/database/connection_utils.cpp:56-125 | parameters written as a request are extracted unchanged, when the SSH port fits 32 bits and disabled SSH settings are defaults |
| ConnectionUtils.DisabledSshIgnored | backend/database/connection_utils.cpp:96-118 | disabled SSH settings are dropped whatever they hold |
| ConnectionUtils.BuildSshTunnelConfig | backend/database/connection_utils.cpp:141-155 | SSH fields copied; public-key auth exactly for `privateKey`; the remote endpoint is the server's comma-free host with a valid port, the kind's default when no port is given |
| ConnectionUtils.TunnelRemoteOfJoined | backend/database/connection_utils.cpp:141-155 | a server written `host,port` is reached at that host and port through the tunnel |
| ConnectionUtils.EstablishSshTunnel | backend/database/connection_utils.cpp:157-165 | success exactly when the tunnel connects, giving its configuration; otherwise "SSH tunnel failed: " and the tunnel's message |
| ConnectionPools.SplitServer | backend/database/connection_pool.cpp:106-111 | without a comma the server and the default port text; with one, a comma-free host and the rest, joined back by the comma to the server |
| ConnectionPools.SplitServerJoined | backend/database/connection_pool.cpp:106-111 | a server `host,rest` splits at its first comma into exactly `host` and `rest` |
| ConnectionPools.ConnectionStringAsWrittenAmbiguous | backend/database/connection_pool.cpp:103-114 | as written, two different saved PostgreSQL connections give the same string: an attribute smuggled after the port cannot be told from one inside the database name |
| ConnectionPools.ConnectionStringAttributes | backend/database/connection_pool.cpp:99-127 | with every value braced, a PostgreSQL or MySQL pool string reads back as exactly driver, host, port text, database and credentials |
| ConnectionPools.SqlServerPoolCredentials | backend/database/connection_pool.cpp:128-138 | a SQL Server pool string reads back as the driver prefix and then integrated security or exactly the braced `UID`/`PWD` |
| ConnectionPools.ConnectionPool.constructor | backend/database/connection_pool.cpp:30-35 | a new pool holds no connection |
| ConnectionPools.ConnectionPool.AddConnection | backend/database/connection_pool.cpp:37-50 | the description is appended exactly when a test connection with its braced string succeeds; otherwise the pool is unchanged |
| ConnectionPools.ConnectionPool.RemoveConnection | backend/database/connection_pool.cpp:52-55 | every description with the id goes; the others stay, in order |
| ConnectionPools.ConnectionPool.Acquire | backend/database/connection_pool.cpp:57-74 | nothing for an unknown id; otherwise a driver on the first matching description's braced string, when that connection succeeds |
| ConnectionPools.ConnectionPool.GetConnections | backend/database/connection_pool.cpp:82-85 | the descriptions in the order they were added |
| ConnectionPools.ConnectionPool.TestConnection | backend/database/connection_pool.cpp:87-97 | whether a connection with the description's braced string succeeds; the pool does not change |
| ConnectionPools.RemoveConnectionIdempotent | backend/database/connection_pool.cpp:52-55 | removing an id twice is removing it once |
| ConnectionPools.AcquireAfterRemove | backend/database/connection_pool.cpp:52-64 | once an id is removed, acquiring it finds nothing |
| ConnectionPools.FindAfterAdd | backend/database/connection_pool.cpp:37-64 | a description just added with a new id is the one acquire finds |
| AsyncExecutor.StatementOutcome | backend/database/async_query_executor.cpp:56-72 | a statement fails exactly when the driver throws; a `USE` that succeeds reports the synthetic message, any other statement the driver's result |
| AsyncExecutor.RunAll | backend/database/async_query_executor.cpp:50-85 | a batch succeeds exactly when every statement does, with one result per statement, in order, each paired with its text |
| AsyncExecutor.RunAllFirstError | backend/database/async_query_executor.cpp:55-85 | a failing batch reports the error of its first failing statement |
| AsyncExecutor.RunStatements | backend/database/async_query_executor.cpp:52-79 | the loop over the statements computes the batch outcome |
| AsyncExecutor.Background | backend/database/async_query_executor.cpp:43-103 | more than one statement takes the batch path; otherwise the text runs as one query, failing exactly when the driver throws |
| AsyncExecutor.RunBackground | backend/database/async_query_executor.cpp:48-103 | the work the task runs is that outcome |
| AsyncExecutor.FreshAfterInsert | backend/database/async_query_executor.cpp:35-106 | handing out `query_<counter>` and moving the counter on keeps every id still to come unused |
| AsyncExecutor.QueryIdsDistinct | backend/database/async_query_executor.cpp:35 | two counter values give the same id exactly when they are equal |
| AsyncExecutor.AsyncQueryExecutor.constructor | backend/database/async_query_executor.cpp:34-35 | an executor starts with no task and the counter at its first value |
| AsyncExecutor.AsyncQueryExecutor.SubmitQuery | backend/database/async_query_executor.cpp:34-109 | a new Running task, flagged multi-statement when the text splits in more than one, stored under `query_<counter>`, an id never used before |
| AsyncExecutor.AsyncQueryExecutor.Complete | backend/database/async_query_executor.cpp:77-101 | finished work sets the status to Completed or Failed (even over Cancelled), the end time, the error message and the produced value |
| AsyncExecutor.AsyncQueryExecutor.FutureReady | backend/database/async_query_executor.cpp:50-102 | the future of finished work becomes ready to take, nothing else changes |
| AsyncExecutor.AsyncQueryExecutor.GetQueryResult | backend/database/async_query_executor.cpp:111-162 | "Query not found" for an unknown id; otherwise the task's multi-statement flag, start and end times and error message; Running while the work is unfinished, else the taken value, cached so a second call gives it again; no result and no results until a value is cached, and only the field matching the flag afterwards |
| AsyncExecutor.AsyncQueryExecutor.CancelQuery | backend/database/async_query_executor.cpp:164-181 | exactly a running task with a driver is cancelled, with its end time; nothing else changes |
| AsyncExecutor.AsyncQueryExecutor.RemoveQuery | backend/database/async_query_executor.cpp:194-206 | a finished task is erased; an unknown id or an active task is refused and nothing changes |
| AsyncExecutor.AsyncQueryExecutor.GetActiveQueryIds | backend/database/async_query_executor.cpp:208-221 | each pending or running id exactly once |
| AsyncExecutor.AsyncQueryExecutor.EvictStaleQueries | backend/database/async_query_executor.cpp:223-244 | at most one scan per interval; a scan erases exactly the finished tasks older than the maximum age and returns how many |
| AsyncExecutor.EvictionKeeps | backend/database/async_query_executor.cpp:223-244 | eviction never removes an active task or one that ended recently |
| SqlServerDrivers.ConvertSqlTypeToDisplayName | backend/database/sqlserver_driver.cpp:79-112 | `UNKNOWN` exactly for codes outside the listed types; every other code gets one of the display names |
| SqlServerDrivers.DisplayNameFamilies | backend/database/sqlserver_driver.cpp:79-112 | two codes share a name only within a family: narrow characters, wide characters, floating, exact numeric |
| SqlServerDrivers.ColumnName | backend/database/sqlserver_driver.cpp:173-182 | a non-empty name: the reported name cut to 255 characters, or `Column<i>` when it is empty |
| SqlServerDrivers.ColumnOf | backend/database/sqlserver_driver.cpp:184 | a column's name, display type, nullability exactly for `SQL_NULLABLE`, a size in the 32-bit range equal to a column size that fits, never a primary key |
| SqlServerDrivers.ColumnsOk | backend/database/sqlserver_driver.cpp:159-185 | the columns are there exactly when every description succeeded |
| SqlServerDrivers.ColumnsAt | backend/database/sqlserver_driver.cpp:159-185 | column `k` is made from description `k`, numbered from 1 |
| SqlServerDrivers.ColumnsFirstError | backend/database/sqlserver_driver.cpp:167-171 | the first failing description decides the error, "Failed to describe column: " and its diagnostic |
| SqlServerDrivers.UpToNul | backend/database/sqlserver_driver.cpp:213-223 | a value is the prefix of the buffer before the first NUL, the whole buffer when it has none |
| SqlServerDrivers.CellValue | backend/database/sqlserver_driver.cpp:199-228 | a NULL or a failed fetch is the empty text; no value holds a NUL |
| SqlServerDrivers.FetchRow | backend/database/sqlserver_driver.cpp:193-230 | the cell loop gives exactly one value per column, each the value of its fetched cell |
| SqlServerDrivers.FetchRows | backend/database/sqlserver_driver.cpp:192-231 | the fetch loop gives one row per fetched row, in order, each of the column count |
| SqlServerDrivers.Shaped | backend/database/sqlserver_driver.cpp:151-245 | a statement that ran gives a result exactly when the column count and every description succeed; rows of the column count; affected rows the row count or 0 |
| SqlServerDrivers.SqlServerDriver.constructor | backend/database/sqlserver_driver.cpp:13-30 | a new driver is disconnected with no statement and no error |
| SqlServerDrivers.SqlServerDriver.Disconnect | backend/database/sqlserver_driver.cpp:68-77 | the statement handle is freed and the connection closed only if open, so a second call does nothing |
| SqlServerDrivers.SqlServerDriver.Connect | backend/database/sqlserver_driver.cpp:42-66 | an open connection is closed first; success exactly when the driver connects; a failure keeps its diagnostic and leaves the driver disconnected |
| SqlServerDrivers.SqlServerDriver.Execute | backend/database/sqlserver_driver.cpp:114-246 | disconnected: "Not connected to database" and no change; otherwise the old handle freed, a new one published before the statement runs, and the shaped result or the error; the last error is the diagnostic of the failing step (allocation, execution, column count or the first failing column description) and is unchanged when the result is shaped |
| SqlServerDrivers.SqlServerDriver.Cancel | backend/database/sqlserver_driver.cpp:248-253 | the published statement, if any, is cancelled; nothing else changes |
| SqlServerDrivers.ShapeResult | backend/database/sqlserver_driver.cpp:151-245 | the part of execute after the statement ran computes the shaped result and the diagnostic to keep |
| SqlServerDrivers.DescribeColumns | backend/database/sqlserver_driver.cpp:159-185 | the column loop computes the columns or the first error, and the failing description's diagnostic |
| SqlServerDrivers.FailedDescription | backend/database/sqlserver_driver.cpp:167-170 | no diagnostic exactly when every column description succeeds |
| SqlServerDrivers.ColumnsFailedDescription | backend/database/sqlserver_driver.cpp:159-185 | the column loop fails exactly when some description does, with the prefix and the first failing description's diagnostic |
| SqlServerDrivers.ShapedDiagnostic | backend/database/sqlserver_driver.cpp:151-171 | a statement that ran fails exactly when a diagnostic is kept, and its error is that diagnostic behind the failing step's message, so the reported error and `getLastError` agree |
| ConnectionRegistries.ConnIdsDistinct | backend/database/connection_registry.cpp:16 | two counter values give the same id exactly when they are equal |
| ConnectionRegistries.ConnectionRegistry.constructor | backend/database/connection_registry.h:58 | a new registry is empty and its counter starts at 1 |
| ConnectionRegistries.ConnectionRegistry.Add | backend/database/connection_registry.cpp:14-19 | the driver is stored under `conn_<counter>`, an id never handed out before, and the counter moves on |
| ConnectionRegistries.ConnectionRegistry.Remove | backend/database/connection_registry.cpp:21-37 | the tunnel is closed before the driver is disconnected (if connected); both entries go, every other id keeps its driver and tunnel |
| ConnectionRegistries.ConnectionRegistry.CloseTunnel | backend/database/connection_registry.cpp:25-28 | the tunnel of the id, if any, is closed and removed |
| ConnectionRegistries.ConnectionRegistry.DropDriver | backend/database/connection_registry.cpp:30-36 | the driver of the id is disconnected when connected and removed |
| ConnectionRegistries.ConnectionRegistry.Get | backend/database/connection_registry.cpp:39-46 | the registered driver, or "Connection '<id>' not found" |
| ConnectionRegistries.ConnectionRegistry.AttachTunnel | backend/database/connection_registry.cpp:58-61 | the id's tunnel is set, replacing (and closing) any previous one |
| ConnectionRegistries.ConnectionRegistry.GetTunnel | backend/database/connection_registry.cpp:63-70 | a tunnel is returned exactly when one is attached to the id |
| ConnectionRegistries.ConnectionRegistry.Clear | backend/database/connection_registry.cpp:72-85 | every tunnel closed first, then every connected driver disconnected; both maps left empty |
| ConnectionProviders.PrepareConnection | backend/providers/connection_provider.cpp:36-55 | without SSH the string built from the parameters; with SSH the tunnel's error, or its configuration and a string aimed at `127.0.0.1,<localPort>` |
| ConnectionProviders.TunnelledTarget | backend/providers/connection_provider.cpp:40-49 | through a tunnel a PostgreSQL or MySQL driver is sent to the loopback host and the local port, while the tunnel forwards to the named server |
| ConnectionProviders.ConnectSucceeds | backend/providers/connection_provider.cpp:71-99 | a connection is made exactly when the request is complete, the tunnel (if asked for) opens and both drivers connect |
| ConnectionProviders.ConnectionProvider.constructor | backend/providers/connection_provider.cpp:59 | a new provider has an empty registry and no metadata driver |
| ConnectionProviders.ConnectionProvider.HandleConnect | backend/providers/connection_provider.cpp:71-99 | on any failure the error and nothing registered (a query driver that did connect is disconnected again); on success both drivers under one new id and the tunnel attached |
| ConnectionProviders.ConnectionProvider.Register | backend/providers/connection_provider.cpp:92-95 | the query driver is registered under a new id, the metadata driver is kept under that id, and a tunnel is attached only after both, replacing (and closing) any earlier one |
| ConnectionProviders.ConnectionProvider.HandleDisconnect | backend/providers/connection_provider.cpp:101-109 | a malformed request is an error; otherwise the registry's remove of the id and the metadata driver disconnected and dropped |
| ConnectionProviders.ConnectionProvider.HandleTestConnection | backend/providers/connection_provider.cpp:111-129 | a malformed request is an error; otherwise a success envelope whose `success` says whether a connect on the prepared string worked; nothing is registered |
| TransactionProviders.RequestedId | backend/providers/transaction_provider.cpp:35-39 | the request's `connectionId` when it is a string, otherwise the missing-field error |
| TransactionProviders.TransactionProvider.constructor | backend/providers/transaction_provider.cpp:12 | a new provider holds no transaction manager |
| TransactionProviders.TransactionProvider.CleanupConnection | backend/providers/transaction_provider.cpp:16-28 | the id's manager is dropped; a malformed request changes nothing |
| TransactionProviders.TransactionProvider.HandleBegin | backend/providers/transaction_provider.cpp:30-59 | an unknown connection is an error with no change; otherwise the id's manager, created on the connection's driver when missing, begins |
| TransactionProviders.TransactionProvider.HandleFinish | backend/providers/transaction_provider.cpp:61-109 | commit and rollback: an id without a manager is an error with no change; otherwise the call is made on that manager |
| QueryProviders.SqlRequest | backend/providers/query_provider.cpp:31-37 | the connection id and SQL text exactly when both are strings; otherwise "Missing required fields: connectionId or sql" |
| QueryProviders.RunPrefixOk | backend/providers/query_provider.cpp:55-76 | a batch succeeds exactly when every statement does, with each result at its statement's position |
| QueryProviders.FirstFailure | backend/providers/query_provider.cpp:87-89 | a failed batch reports "Statement k of n" for the first statement that failed, every earlier one having succeeded |
| QueryProviders.FailureStops | backend/providers/query_provider.cpp:55-89 | once a statement fails the later ones are not run: the outcome stays that failure |
| QueryProviders.RunStatement | backend/providers/query_provider.cpp:59-72 | one statement: a `USE` runs and reports the synthetic message, any other statement the driver's result |
| QueryProviders.RunStatements | backend/providers/query_provider.cpp:55-76 | the statement loop computes the batch outcome, stopping at the first exception |
| QueryProviders.Pairs | backend/providers/query_provider.cpp:74 | each statement paired with its result, in order |
| QueryProviders.BuildMultipleResults | backend/providers/query_provider.cpp:78-86 | the answer loop writes each statement and its result, a comma before all but the first |
| QueryProviders.CacheKeyInjective | backend/providers/query_provider.cpp:117-121 | connection ids hold no NUL, so a cache key names exactly one connection and one text |
| QueryProviders.ExecuteBatch | backend/providers/query_provider.cpp:47-91 | the batch answer: every result, or the first failure |
| QueryProviders.SwitchDatabase | backend/providers/query_provider.cpp:94-109 | a single `USE`: the synthetic message result, or "Failed to switch database: " and the error |
| QueryProviders.ExecuteQuery | backend/providers/query_provider.cpp:26-149 | a cache entry is written only for recorded work, and work is recorded only for a known connection's single statement that ran without error |
| QueryProviders.CachedExecution | backend/providers/query_provider.cpp:111-145 | a single non-`USE` statement is stored only when recorded, and recorded only when it ran successfully |
| QueryProviders.StoresOnlySuccess | backend/providers/query_provider.cpp:111-133 | a cache entry is written only for a read-only text with caching on, under its new key, with the result of a successful execution |
| QueryProviders.HitSkipsDriver | backend/providers/query_provider.cpp:122-126 | a cache hit answers with the stored result marked cached, whatever the driver would do |
| QueryProviders.SecondCallHits | backend/providers/query_provider.cpp:111-133 | asking the same read-only query again while its entry is still cached (right after the first call stored it) answers with the first result, from the cache |
| QueryProviders.BatchSuccess | backend/providers/query_provider.cpp:47-86 | a batch whose statements all succeed answers with every statement and its result, in order; nothing cached or recorded |
| QueryProviders.BatchFailure | backend/providers/query_provider.cpp:47-91 | a batch with a failing statement answers with the first failure and its position; nothing cached or recorded |
| QueryProviders.SortPiece | backend/providers/query_provider.cpp:166-173 | a clause exactly for an item with both `colId` and `sort`, ending in ` ASC` exactly for `asc` |
| QueryProviders.SortPieces | backend/providers/query_provider.cpp:164-175 | non-empty clauses, none exactly when no item is usable |
| QueryProviders.WriteSortClauses | backend/providers/query_provider.cpp:165-175 | the sort loop joins the clauses with `, ` |
| QueryProviders.PaginatedResponse | backend/providers/query_provider.cpp:151-204 | a malformed request or unknown connection is an error; otherwise the page query runs |
| QueryProviders.OrderByEmpty | backend/providers/query_provider.cpp:164-191 | the neutral `ORDER BY (SELECT NULL)` is used exactly when no sort item is usable |
| QueryProviders.RowCountResponse | backend/providers/query_provider.cpp:227-232 | "Failed to get row count" exactly when the count result has no first cell |
| QueryProviders.FilterKindOf | backend/providers/query_provider.cpp:277-289 | only `equals`, `contains` and `range` are filters; any other name is "Unknown filter type: <name>" |
| QueryProviders.GetUint64 | backend/providers/query_provider.cpp:256 | a column index read as an unsigned 64-bit integer is below 2^64 |
| QueryProviders.FilterRequest | backend/providers/query_provider.cpp:249-289 | a filter call only for a request with every field, a known connection, a query that ran and a known filter name |
| QueryProviders.Picked | backend/providers/query_provider.cpp:294-298 | the matched rows, in the order of the filter's indexes |
| QueryProviders.WriteMatchedRows | backend/providers/query_provider.cpp:294-305 | the row loop writes the matched rows, comma-separated |
| QueryProviders.ExecutePaginated | backend/providers/query_provider.cpp:151-204 | the paginated handler computes that response |
| QueryProviders.QueryProvider.constructor | backend/providers/query_provider.cpp:22 | a new provider has an empty cache and history |
| QueryProviders.QueryProvider.HandleExecuteQuery | backend/providers/query_provider.cpp:26-149 | the response, the cache write and the history entry of the specification |
| QueryProviders.QueryProvider.ExecuteSingle | backend/providers/query_provider.cpp:111-145 | the cache check, execution and history entry of a single statement |
| QueryProviders.QueryProvider.HandleExecuteQueryPaginated | backend/providers/query_provider.cpp:151-204 | the paginated response with sort columns quoted by `quoteBracketIdentifier` |
| QueryProviders.QueryProvider.HandleGetRowCount | backend/providers/query_provider.cpp:206-236 | missing fields or unknown connection are errors; otherwise the wrapped count query's error or its first cell |
| QueryProviders.QueryProvider.HandleCancelQuery | backend/providers/query_provider.cpp:238-247 | a well-formed request always succeeds; the driver is cancelled only for a known connection |
| QueryProviders.QueryProvider.HandleFilterResultSet | backend/providers/query_provider.cpp:249-312 | the first failing check's error, or the columns, the matched rows in order and the row counts |
| SchemaProviders.CsvArrayReadsBack | backend/providers/schema_provider.cpp:20-33 | the array reads back as one string per comma-separated field, the fields join back into the text, and the empty text gives `[]` |
| SchemaProviders.SplitCsvToJsonArray | backend/providers/schema_provider.cpp:20-33 | the loop with its `first` flag writes that array |
| SchemaProviders.TableRequest | backend/providers/schema_provider.cpp:40-56 | the parser's error for a request that does not parse; otherwise success exactly when both fields are there, the table name is a valid identifier and the connection is known, each failure with its own message, in that order |
| SchemaProviders.DatabaseNamesReadBack | backend/providers/schema_provider.cpp:74-75 | the array of names reads back as the first value of every row that has one, in order |
| SchemaProviders.HandleGetDatabases | backend/providers/schema_provider.cpp:64-80 | a bad id or unknown connection is an error; otherwise the query's error or the names array |
| SchemaProviders.MetadataSchemaReadBack | backend/providers/schema_provider.cpp:484-485 | the schema name reads back from the start of the metadata object |
| SchemaProviders.ErrorResponsesDiffer | backend/providers/schema_provider.cpp:476-482 | distinct messages give distinct error envelopes, so the two metadata failures are told apart |
| SchemaProviders.MetadataResponse | backend/providers/schema_provider.cpp:476-494 | "Table not found" exactly when there is no row, the column-count error exactly for a short first row, the object otherwise |
| SchemaProviders.TableMetadataResponse | backend/providers/schema_provider.cpp:446-498 | the request's error, the query's error, or the metadata answer |
| SchemaProviders.LengthSuffix | backend/providers/schema_provider.cpp:539-546 | no size exactly when neither a length (other than -1) nor a precision (other than 0) is given; otherwise the length, or the precision with a non-zero scale, in parentheses |
| SchemaProviders.ColumnsTextStart | backend/providers/schema_provider.cpp:531-551 | the column list is empty exactly when no row has seven values, and otherwise starts with a column, never a separator |
| SchemaProviders.PkNameRoundTrip | backend/providers/schema_provider.cpp:568 | the quoted constraint name reads back as `PK_` and the table name |
| SchemaProviders.DdlReadBack | backend/providers/schema_provider.cpp:582 | the DDL text reads back from the answer |
| SchemaProviders.ColumnLine | backend/providers/schema_provider.cpp:538-550 | one column line, appended piece by piece |
| SchemaProviders.ColumnSpecText | backend/providers/schema_provider.cpp:538-550 | the type, size, null and default pieces |
| SchemaProviders.SizeText | backend/providers/schema_provider.cpp:539-546 | the size branch computes the size suffix |
| SchemaProviders.WriteColumns | backend/providers/schema_provider.cpp:531-551 | the column loop skips short rows and writes a separator before every column but the first |
| SchemaProviders.WritePkColumns | backend/providers/schema_provider.cpp:569-577 | the key loop writes the first value of each non-empty row, joined by `, ` |
| SchemaProviders.BuildTableDdl | backend/providers/schema_provider.cpp:529-580 | the DDL as the handler appends it |
| SchemaProviders.HandleGetTableDdl | backend/providers/schema_provider.cpp:500-586 | the columns then the primary key looked up under the split schema and name, the DDL naming the table as given; any failure's error |
| SchemaProviders.PlanQuery | backend/providers/schema_provider.cpp:609-614 | the statement stands between the switches; the XML statistics switch exactly for an actual plan |
| SchemaProviders.DropLeadingEmpty | backend/providers/schema_provider.cpp:618-625 | the cells from the first non-empty one on |
| SchemaProviders.PlanTextJoin | backend/providers/schema_provider.cpp:618-625 | the plan text is the values joined by line breaks once the leading empty values are dropped |
| SchemaProviders.PlanTextPlainJoin | backend/providers/schema_provider.cpp:618-625 | when the first value is not empty, the plan is all values joined by line breaks in row-major order |
| SchemaProviders.CollectPlanText | backend/providers/schema_provider.cpp:618-625 | the nested loop over rows and values computes the plan text |
| SchemaProviders.PlanJsonReadBack | backend/providers/schema_provider.cpp:627 | the plan text reads back from the answer, followed by the flag |
| SchemaProviders.HandleGetExecutionPlan | backend/providers/schema_provider.cpp:588-632 | missing fields or unknown connection are errors; otherwise the wrapped plan query's error or its plan text and flag |
| DatabaseContexts.QuotedNonEmpty | backend/contexts/database_context.cpp:57-62 | bracketed non-empty pieces joined by dots are empty only when there are no pieces |
| DatabaseContexts.KeptNonEmpty | backend/contexts/database_context.cpp:57-71 | every piece the sanitiser keeps is non-empty |
| DatabaseContexts.SanitizedSnoc | backend/contexts/database_context.cpp:57-71 | one more piece: an empty one changes nothing; another is appended bracketed, after a dot unless it is the first written |
| DatabaseContexts.Find | backend/contexts/database_context.cpp:55-64 | the result is the first position at or after `start` that holds the character, or none when no such position exists |
| DatabaseContexts.PieceAtDot | backend/contexts/database_context.cpp:55-64 | the text before the next dot is the next piece of the split, and the rest of the split is the split after that dot |
| DatabaseContexts.AppendSanitized | backend/contexts/database_context.cpp:57-62 | one loop step leaves the text equal to the sanitised form of the pieces seen so far |
| DatabaseContexts.SanitizeIdentifier | backend/contexts/database_context.cpp:32-73 | the loop returns the non-empty dot-separated pieces, each bracketed with `]` doubled, joined by dots |
| DatabaseContexts.SanitizedEmpty | backend/contexts/database_context.cpp:49-73 | the result is empty exactly when the identifier has no non-empty piece, and the empty identifier gives the empty text |
| DatabaseContexts.SanitizedUnquotes | backend/contexts/database_context.cpp:49-73 | unquoting the sanitised text gives the non-empty pieces joined by dots: only empty pieces are lost |
| DatabaseContexts.SanitizedRoundTrip | backend/contexts/database_context.cpp:49-73 | for an identifier with no empty piece the sanitiser agrees with `quoteBracketIdentifier` and unquoting gives the identifier back |
| DatabaseContexts.SanitizedValid | backend/contexts/database_context.cpp:49-73 | a sanitised identifier with at least one piece passes the bracket scan of `isValidIdentifier` |
| DatabaseContexts.IndexSeparatedLead | backend/contexts/database_context.cpp:658-663 | a separator rule on the row index writes the kept rows joined by the separator, with one extra separator in front exactly when the first row is skipped and some later row is kept |
| DatabaseContexts.DatabaseNamesAsWrittenDiffer | backend/contexts/database_context.cpp:646-670 | the database list as written equals the provider's array unless the first row is empty and a later row is not; then it opens with a stray comma and is one character longer |
| DatabaseContexts.DatabaseNamesCounterexample | backend/contexts/database_context.cpp:658-663 | rows `[]`, `["x"]` give `[,"x"]` as written and `["x"]` from `buildRowArray` |
| DatabaseContexts.ColumnsAsWrittenDiffer | backend/contexts/database_context.cpp:1158-1177 | the column list as written equals the intended one unless the first row is short and a later one is full; then it opens with a stray `,` and line break |
| DatabaseContexts.ColumnsCounterexample | backend/contexts/database_context.cpp:1158-1163 | a short row before one full row: a separator precedes the only column as written, and none in the intended list |
| DatabaseContexts.ContextColumnsStart | backend/contexts/database_context.cpp:1158-1177 | the intended column list is empty exactly when no row has seven values, and otherwise starts with a column's indentation, never a separator |
| DatabaseContexts.ContextDdlNames | backend/contexts/database_context.cpp:1156-1194 | the table name and the `PK_` constraint name read back as their non-empty pieces joined by dots |
| DatabaseContexts.ContextColumnLine | backend/contexts/database_context.cpp:1164-1176 | the line appended for a row of seven values is the column definition: sanitised name, type, length or precision and scale, `NOT NULL`, default |
| DatabaseContexts.WriteContextColumns | backend/contexts/database_context.cpp:1158-1177 | the corrected loop writes the full rows' definitions with `,` and a line break only between them |
| DatabaseContexts.WriteContextPkColumns | backend/contexts/database_context.cpp:1195-1200 | the key loop writes the key columns joined by `, ` |
| DatabaseContexts.BuildContextDdl | backend/contexts/database_context.cpp:1156-1203 | the DDL text is the sanitised `CREATE TABLE` header, the column list, the key constraint when there are key rows, and the closing `);` |
| DatabaseContexts.GetContextTableDdl | backend/contexts/database_context.cpp:1128-1209 | the request's error, either query's error, or the escaped DDL in a success envelope |
| DatabaseContexts.DatabaseContext.constructor | backend/contexts/database_context.cpp:146-151 | the context starts with no connections, no metadata drivers, an empty cache and history and no transaction managers |
| DatabaseContexts.DatabaseContext.HandleDisconnect | backend/contexts/database_context.cpp:210-224 | a valid id loses its transaction manager and then its registry entry and both drivers; every other id keeps its manager and drivers; a missing id is an error that changes nothing |
| DatabaseContexts.DatabaseContext.HandleExecuteQuery | backend/contexts/database_context.cpp:261-384 | the response, the cache update and the history entry are those of the provider's execution over the ids that have a query driver |
| DatabaseContexts.DatabaseContext.HandleExecuteQueryPaginated | backend/contexts/database_context.cpp:386-439 | the provider's paginated response, with sort columns quoted by `sanitizeIdentifier` |
| DatabaseContexts.DatabaseContext.HandleGetDatabases | backend/contexts/database_context.cpp:646-670 | a bad or unknown id is an error; otherwise the query's error or the names array with commas only between names |
| DatabaseContexts.DatabaseContext.HandleGetTableDdl | backend/contexts/database_context.cpp:1128-1209 | the request's error, either query's error, or the corrected DDL in a success envelope |
| DatabaseContexts.DatabaseContext.HandleBeginTransaction | backend/contexts/database_context.cpp:1259-1288 | a missing or unknown id is an error that changes nothing; otherwise the id's manager, created over its query driver when it has none, records one more begin, and the response is the begin's error or success |
| DatabaseContexts.DatabaseContext.HandleFinishTransaction | backend/contexts/database_context.cpp:1290-1338 | a malformed request or an id without a manager is an error that changes nothing; otherwise that manager, and no other, records the commit or rollback over the same driver, and the response is its failure or `{}` |
| A5erUtils.Unescape | backend/parsers/a5er_utils.cpp:5-16 | the loop returns the text with every `\q` pair removed, scanning left to right |
| A5erUtils.UnescapedLength | backend/parsers/a5er_utils.cpp:8-14 | each removed pair takes exactly two characters, so the result is never longer than the input |
| A5erUtils.UnescapedPlain | backend/parsers/a5er_utils.cpp:8-14 | text without a backslash comes back unchanged |
| A5erUtils.QuotedValue | backend/parsers/a5er_utils.h:10 | a backslash-free value between two `\q` markers reads as the value |
| A5erUtils.QuotedZero | backend/parsers/a5er_utils.h:10 | `\q0\q` reads as `0` |
| A5erUtils.UnescapedTail | backend/parsers/a5er_utils.cpp:8-14 | a backslash-free prefix is copied and the rest is unescaped on its own |
| A5erUtils.TrailingBackslashKept | backend/parsers/a5er_utils.cpp:9 | a backslash at the very end has no `q` after it and is kept |
| A5erParser.BracketEscape | backend/parsers/a5er_parser.cpp:20-31 | the loop writes the name in brackets with every `]` doubled |
| A5erParser.BracketEscapeRoundTrip | backend/parsers/a5er_parser.cpp:20-31 | reading the brackets back gives the name; a non-empty name is quoted exactly as an identifier part is, the empty name as `[]` |
| A5erParser.ColorDigits | backend/parsers/a5er_parser.cpp:121-145 | a colour is accepted only as `$` and six hexadecimal digits, or eight whose alpha is not `FF`, and then six digits are kept |
| A5erParser.ConvertA5erColor | backend/parsers/a5er_parser.cpp:121-155 | the result is empty or `#` and six upper-case hexadecimal digits, and it is non-empty exactly when the input is an accepted colour |
| A5erParser.ColorRoundTrip | backend/parsers/a5er_parser.cpp:147-154 | every CSS colour the conversion can produce comes back from its `$BBGGRR` form: the byte order is reversed and nothing else changes |
| A5erParser.ColorAlpha | backend/parsers/a5er_parser.cpp:128-135 | an alpha `FF` in either case means the default colour and converts to nothing; any other alpha is ignored |
| A5erParser.ResolveCardinality | backend/parsers/a5er_parser.cpp:392-409 | `N:M` exactly when both ends are many, `1:1` exactly when both are one, `1:N` otherwise, and a swap exactly when the first end is many and the second one |
| A5erParser.SkipSpaces | backend/parsers/a5er_parser.cpp:351-352 | no longer than the input and not starting with a space |
| A5erParser.QuotedValue | backend/parsers/a5er_parser.cpp:357-374 | the rest after a quoted value is never longer than the input |
| A5erParser.UpToComma | backend/parsers/a5er_parser.cpp:376-381 | an unquoted field is no longer than the text, and non-empty unless the text is empty or starts with a comma |
| A5erParser.SkipComma | backend/parsers/a5er_parser.cpp:385-386 | skipping the comma shortens a text that starts with one |
| A5erParser.SkipSpacesAt | backend/parsers/a5er_parser.cpp:351-352 | the loop stops where `SkipSpaces` of the rest starts |
| A5erParser.ReadQuotedAt | backend/parsers/a5er_parser.cpp:357-374 | the loop returns the quoted value with `""` read as `"` and stops after the closing quote |
| A5erParser.ReadUnquotedAt | backend/parsers/a5er_parser.cpp:376-381 | the loop returns the text up to the next comma |
| A5erParser.ParseQuotedCsv | backend/parsers/a5er_parser.cpp:344-390 | the loop returns the fields of the line in order |
| A5erParser.ReadField | backend/parsers/a5er_parser.cpp:349-387 | one pass of the loop reads one field and the comma after it, or ends the line when only spaces remain |
| A5erParser.QuotedValueOf | backend/parsers/a5er_parser.cpp:357-374 | a value written with its quotes doubled and then closed reads back as the value, followed by the rest |
| A5erParser.CsvFieldsQuoted | backend/parsers/a5er_parser.cpp:344-390 | a quoted field reads back as its value and reading resumes after the following comma |
| A5erParser.CsvRoundTrip | backend/parsers/a5er_parser.cpp:344-390 | values written as a quoted CSV line read back as the same values, and a trailing comma adds no field |
| A5erParser.StripCr | backend/parsers/a5er_parser.cpp:427-429 | the line, or the line less its one trailing carriage return |
| A5erParser.SplitSections | backend/parsers/a5er_parser.cpp:421-460 | the first loop returns the sections of the text, each with its kind and lines |
| A5erParser.ScanLine | backend/parsers/a5er_parser.cpp:426-454 | the loop body for one line: a header closes the open section and opens a new one, `DEL` closes it, any other line is gathered only inside a section |
| A5erParser.ScanLinesGood | backend/parsers/a5er_parser.cpp:425-455 | the scan keeps closed sections of a kept kind with plain lines, and gathers lines only while a section is open |
| A5erParser.SectionsGood | backend/parsers/a5er_parser.cpp:421-460 | every section read is an entity, relation or shape section, and none of its lines is a header or `DEL` |
| A5erParser.NoHeaderNoScan | backend/parsers/a5er_parser.cpp:452-454 | lines before the first header belong to no section |
| A5erParser.NoHeaderNoSections | backend/parsers/a5er_parser.cpp:421-460 | a text without a header line has no sections |
| A5erParser.ReadProps | backend/parsers/a5er_parser.cpp:558-563 | the loop builds the property map of the lines |
| A5erParser.PropsKeys | backend/parsers/a5er_parser.cpp:539-542 | a key is set exactly when some line has it before its first `=` |
| A5erParser.PropsLastWins | backend/parsers/a5er_parser.cpp:541 | the last line that sets a key gives its value, the text after the first `=` |
| A5erParser.PropsOtherLine | backend/parsers/a5er_parser.cpp:539-542 | a line that does not set a key leaves that key's value as it was |
| A5erParser.FieldColumn | backend/parsers/a5er_parser.cpp:493-517 | the column's name, type and colour are fields 0, 2 and 7; it is not nullable exactly when field 3 is `NOT NULL`; it is a key exactly when field 4 is non-empty; size and scale are 0 |
| A5erParser.IndexOfLine | backend/parsers/a5er_parser.cpp:518-537 | an `Index=` line gives an index exactly when it has an `=`, and the index name holds no `=` |
| A5erParser.IndexLineRoundTrip | backend/parsers/a5er_parser.cpp:518-537 | an `Index=` line written as name, `=`, unique flag and columns each followed by a comma reads back as that index, unique exactly when the flag is `1` |
| A5erParser.ReadEntity | backend/parsers/a5er_parser.cpp:489-555 | the line loop of an entity section returns that section's table |
| A5erParser.EntityStepParts | backend/parsers/a5er_parser.cpp:492-544 | a field line adds one column, a property line updates the properties, an index line touches neither |
| A5erParser.EntityColumns | backend/parsers/a5er_parser.cpp:492-517 | an entity's columns are its field lines' columns, in order |
| A5erParser.EntityProps | backend/parsers/a5er_parser.cpp:538-543 | an entity's properties come from its property lines only: a `Field=` or `Index=` line never sets one |
| A5erParser.RelationOf | backend/parsers/a5er_parser.cpp:556-582 | the relation's ends are `Entity1`/`Fields1` and `Entity2`/`Fields2`, swapped exactly when the first end is many and the second one; the name is `parent_child` and the cardinality one of the three |
| A5erParser.ShapeOf | backend/parsers/a5er_parser.cpp:583-610 | the shape's text has `\q` removed, a missing `BrushAlpha` is 255, a missing or zero `FontSize` is 9 |
| A5erParser.ShapeZeroAlpha | backend/parsers/a5er_parser.cpp:597-600 | an explicit `BrushAlpha=0` is kept |
| A5erParser.ParseTextFormat | backend/parsers/a5er_parser.cpp:411-615 | the sections, then the section loop, give the text's model |
| A5erParser.ModelTables | backend/parsers/a5er_parser.cpp:487-555 | the model's tables are its entity sections' tables in order, and its name is empty |
| A5erParser.MarkupNotText | backend/parsers/a5er_parser.cpp:235-246 | text whose first non-blank, non-mark character is `<` is never the text format |
| A5erParser.HeaderIsText | backend/parsers/a5er_parser.cpp:235-246 | a text starting with the `# A5:ER` header is the text format and can be parsed |
| A5erParser.BomIgnored | backend/parsers/a5er_parser.cpp:257-267 | a byte-order mark in front of a text changes nothing in what is parsed |
| A5erParser.ToErModel | backend/parsers/a5er_parser.cpp:159-231 | the name, database type and relations are kept, and there are as many tables and shapes |
| A5erParser.ErColors | backend/parsers/a5er_parser.cpp:159-231 | every colour of the converted model is empty or `#RRGGBB`, and shape types hold no upper-case letter |
| A5erParser.ErKeepsStructure | backend/parsers/a5er_parser.cpp:164-197 | apart from colours, every table and column keeps its names, types, keys, defaults, comments and indexes |
| A5erDdl.MapTypeToSqlServer | backend/parsers/a5er_parser.cpp:712-746 | an unknown type is written as it is; a known type becomes a SQL Server type name, never one of the A5:ER spellings the mapping rewrites |
| A5erDdl.MapTypeIdempotent | backend/parsers/a5er_parser.cpp:712-746 | mapping a mapped type again changes nothing |
| A5erDdl.MapTypeSized | backend/parsers/a5er_parser.cpp:713-718 | a character type keeps a size from 1 to 8000 and is `NVARCHAR(MAX)` otherwise |
| A5erDdl.CommaIffFollowed | backend/parsers/a5er_parser.cpp:664-666 | a column line ends with a comma exactly when another definition follows it: a further column, or the key constraint written when some column is a key |
| A5erDdl.BracketListStep | backend/parsers/a5er_parser.cpp:681-687 | one more bracket-escaped name extends a `, `-separated list |
| A5erDdl.WriteBracketList | backend/parsers/a5er_parser.cpp:681-687 | the loop writes the bracket-escaped names separated by `, ` |
| A5erDdl.KeyNamesStep | backend/parsers/a5er_parser.cpp:660-662 | the key loop adds a column's name exactly when it is a key |
| A5erDdl.WriteColumns | backend/parsers/a5er_parser.cpp:650-674 | the column loop writes every column line and collects the key column names in order |
| A5erDdl.WriteTableHead | backend/parsers/a5er_parser.cpp:642-646 | the optional comment line and the `CREATE TABLE` line |
| A5erDdl.WriteIndex | backend/parsers/a5er_parser.cpp:694-708 | the `CREATE [UNIQUE] INDEX` statement over the bracket-escaped index columns |
| A5erDdl.GenerateTableDdl | backend/parsers/a5er_parser.cpp:639-710 | the table's DDL: head, columns, key constraint when there are keys, `);`, then each index |
| A5erDdl.IndexSeparators | backend/parsers/a5er_parser.cpp:694-708 | indexes written with the separator before each equal those written with the separator after each |
| A5erDdl.TableDdlsAgree | backend/parsers/a5er_parser.cpp:60-107 | a table as `generateTableDDL` writes it, followed by a blank line, is the table as `generateDDL` writes it |
| A5erDdl.TablesSame | backend/parsers/a5er_parser.cpp:60-107 | two table writers that agree on every table write the same text |
| A5erDdl.TablesAgree | backend/parsers/a5er_parser.cpp:623-627 | both generators write the same table section |
| A5erDdl.GeneratorsAgree | backend/parsers/a5er_parser.cpp:617-637 | `generateA5ERDDL` and `generateDDL` write the same text after their first line |
| A5erDdl.WriteA5erTables | backend/parsers/a5er_parser.cpp:623-627 | the table loop of `generateA5ERDDL` |
| A5erDdl.GenerateA5erDdl | backend/parsers/a5er_parser.cpp:617-637 | the header, the tables and the foreign keys |
| A5erDdl.WriteErTable | backend/parsers/a5er_parser.cpp:60-107 | the table loop of `generateDDL` for one table |
| A5erDdl.WriteErTables | backend/parsers/a5er_parser.cpp:60-107 | the table loop of `generateDDL` |
| A5erDdl.GenerateDdl | backend/parsers/a5er_parser.cpp:49-117 | the header naming the target, the tables and the foreign keys |
| A5erDdl.WriteForeignKeys | backend/parsers/a5er_parser.cpp:109-114 | one `ALTER TABLE ... FOREIGN KEY` statement per relation, child to parent |
| ErDiagramParserFactory.ExtensionOf | backend/parsers/er_diagram_parser_factory.cpp:13-20 | the extension is empty exactly when there is no dot or the last dot starts the name; otherwise it is the lower-cased text from the last dot on, shorter than the name, with no further dot and no upper-case letter |
| ErDiagramParserFactory.ExtensionOfSuffix | backend/parsers/er_diagram_parser_factory.cpp:13-20 | a name with a non-empty stem and one final extension has that extension, lower-cased, whatever the case of its letters |
| ErDiagramParserFactory.ExtractExtension | backend/parsers/er_diagram_parser_factory.cpp:13-20 | the search for the last dot and the lower-casing loop return that extension |
| ErDiagramParserFactory.ByExtension | backend/parsers/er_diagram_parser_factory.cpp:36-41 | the first registered parser that lists the extension and accepts the content; none exactly when no parser does both |
| ErDiagramParserFactory.ByContent | backend/parsers/er_diagram_parser_factory.cpp:44-47 | the first registered parser that accepts the content; none exactly when none does |
| ErDiagramParserFactory.Selected | backend/parsers/er_diagram_parser_factory.cpp:32-50 | the selected parser accepts the content and is registered; there is one exactly when some registered parser accepts the content; an extension match wins; otherwise the "no parser" error |
| ErDiagramParserFactory.SelectedIgnoresName | backend/parsers/er_diagram_parser_factory.cpp:24-50 | with only the A5:ER parser registered, the file name never changes the choice |
| ErDiagramParserFactory.ErDiagramParserFactory.constructor | backend/parsers/er_diagram_parser_factory.cpp:24-26 | the factory starts with the A5:ER parser registered |
| ErDiagramParserFactory.ErDiagramParserFactory.FindParser | backend/parsers/er_diagram_parser_factory.cpp:32-50 | the two loops with early return select that parser or fail with the "no parser" error |
| ErDiagramParserFactory.ErDiagramParserFactory.Parse | backend/parsers/er_diagram_parser_factory.cpp:52-54 | the selected parser's model of the content, or the selection error |
| ErDiagramParserFactory.ErDiagramParserFactory.GenerateDdl | backend/parsers/er_diagram_parser_factory.cpp:56-60 | the DDL the selected parser writes for its own model of the content, or the selection error |
| ErDiagramParserFactory.ErDiagramParserFactory.ParseWithDdl | backend/parsers/er_diagram_parser_factory.cpp:62-67 | one selection: the model and the DDL written for that same model, both by the selected parser, or the selection error |
| SettingsManagers.Lookup | backend/utils/settings_manager.cpp:96-102 | a found profile has the id and is stored; nothing is found exactly when no profile has the id |
| SettingsManagers.LookupAfterAdd | backend/utils/settings_manager.cpp:79-82 | after an append the new id finds the new profile unless the id was taken, when the older profile shadows it; other ids are unaffected |
| SettingsManagers.LookupAfterUpdate | backend/utils/settings_manager.cpp:84-89 | after an update the id finds the new profile when it was known, and nothing otherwise |
| SettingsManagers.LookupAfterRemove | backend/utils/settings_manager.cpp:91-94 | after a removal the id is unknown |
| SettingsManagers.LookupAfterWrite | backend/utils/settings_manager.cpp:84-89 | writing over the first profile with the id: that id finds the new profile, every other id finds what it found before |
| SettingsManagers.WithSecret | backend/utils/settings_manager.cpp:108-206 | exactly the chosen secret is replaced; the other secrets, the identity and the server are kept; `savePassword` changes only for the database password |
| SettingsManagers.SecretRoundTrip | backend/utils/settings_manager.cpp:108-220 | a secret that was set reads back: the empty value as empty, any other through the decryption of its encryption; the other secrets and the profile count are kept |
| SettingsManagers.SavePasswordAfterSet | backend/utils/settings_manager.cpp:116-128 | setting the database password sets `savePassword` exactly when the password is non-empty; the SSH setters leave it alone |
| SettingsManagers.SecretUnknownProfile | backend/utils/settings_manager.cpp:111-114 | a secret of an unknown profile can be neither set nor read: both give "Profile not found" |
| SettingsManagers.SettingsManager.constructor | backend/utils/settings_manager.cpp:18-32 | the manager holds the loaded settings |
| SettingsManagers.SettingsManager.UpdateSettings | backend/utils/settings_manager.cpp:74-77 | the whole settings are replaced |
| SettingsManagers.SettingsManager.AddConnectionProfile | backend/utils/settings_manager.cpp:79-82 | the profile is appended, even when its id is taken, and nothing else changes |
| SettingsManagers.SettingsManager.UpdateConnectionProfile | backend/utils/settings_manager.cpp:84-89 | the first profile with the id is replaced and nothing changes when there is none |
| SettingsManagers.SettingsManager.RemoveConnectionProfile | backend/utils/settings_manager.cpp:91-94 | every profile with the id is removed, the others kept in order, and afterwards no profile has the id |
| SettingsManagers.SettingsManager.StoreSecret | backend/utils/settings_manager.cpp:108-206 | on an error the message is returned and nothing changes; otherwise the profiles with the secret set |
| SettingsManagers.SettingsManager.SetProfilePassword | backend/utils/settings_manager.cpp:108-130 | the database password set as `SetSecret` says, or its error with nothing changed |
| SettingsManagers.SettingsManager.SetSshPassword | backend/utils/settings_manager.cpp:150-170 | the SSH password set as `SetSecret` says, or its error with nothing changed |
| SettingsManagers.SettingsManager.SetSshKeyPassphrase | backend/utils/settings_manager.cpp:186-206 | the SSH key passphrase set as `SetSecret` says, or its error with nothing changed |
| SessionManagers.FindTab | backend/utils/session_manager.cpp:77-82 | a found tab has the id and is open; nothing is found exactly when no tab has the id |
| SessionManagers.FindTabAfterAdd | backend/utils/session_manager.cpp:72-75 | an added tab is found by its id unless an older tab has that id; every other id finds what it found before |
| SessionManagers.FindTabAfterUpdate | backend/utils/session_manager.cpp:77-82 | an updated tab is found by its id when the id was open, and nothing otherwise |
| SessionManagers.RemovedTab | backend/utils/session_manager.cpp:84-87 | a removed tab is gone, every other tab stays, and removing it again changes nothing |
| SessionManagers.SessionManager.constructor | backend/utils/session_manager.cpp:18-29 | the manager holds the loaded session and the auto-save setting it starts with |
| SessionManagers.SessionManager.UpdateState | backend/utils/session_manager.cpp:67-70 | the whole session is replaced and the auto-save setting kept |
| SessionManagers.SessionManager.AddTab | backend/utils/session_manager.cpp:72-75 | the tab is appended at the end and nothing else changes |
| SessionManagers.SessionManager.UpdateTab | backend/utils/session_manager.cpp:77-82 | the first tab with the id is replaced, nothing changes when there is none |
| SessionManagers.SessionManager.RemoveTab | backend/utils/session_manager.cpp:84-87 | every tab with the id is removed, the others kept in order |
| SessionManagers.SessionManager.SetActiveTab | backend/utils/session_manager.cpp:89-92 | the active tab id is set as given, open or not, and nothing else changes |
| SessionManagers.SessionManager.UpdateWindowState | backend/utils/session_manager.cpp:94-101 | exactly the position, size and maximized flag change |
| SessionManagers.SessionManager.UpdatePanelSizes | backend/utils/session_manager.cpp:103-107 | exactly the two panel sizes change |
| SessionManagers.SessionManager.SetActiveConnection | backend/utils/session_manager.cpp:109-112 | exactly the active connection id changes |
| SessionManagers.SessionManager.SetExpandedNodes | backend/utils/session_manager.cpp:114-117 | exactly the expanded node list changes, to the list given |
| SessionManagers.SessionManager.EnableAutoSave | backend/utils/session_manager.cpp:119-122 | auto-save is on with the given interval and the session is unchanged |
| SessionManagers.SessionManager.DisableAutoSave | backend/utils/session_manager.cpp:124-126 | auto-save is off, the interval is kept and the session is unchanged |
| SettingsProviders.NarrowToInt | backend/providers/settings_provider.cpp:147-149 | the result lies in the range of `int`, equals the input when the input does, and is the nearer bound otherwise |
| SettingsProviders.NarrowMonotone | backend/providers/settings_provider.cpp:147-149 | the clamp keeps the order of its arguments and is idempotent |
| SettingsProviders.MergeKeeps | backend/providers/settings_provider.cpp:172-232 | the fields `updateSettings` never reads (the profiles, the last connection, the recent-connection limit, three editor flags, cell editing, the date format) keep their values whatever the request holds |
| SettingsProviders.MergeWithoutSections | backend/providers/settings_provider.cpp:179-222 | a request without any of the four sections, or one that does not parse, changes nothing |
| SettingsProviders.MergeIdempotent | backend/providers/settings_provider.cpp:172-232 | applying the same request twice is applying it once |
| SettingsProviders.MergeInRange | backend/providers/settings_provider.cpp:185-220 | every integer field the update writes stays in the range of `int` |
| SettingsProviders.GeneralRoundTrip | backend/providers/settings_provider.cpp:179-189 | the `general` section of a document restores the fields the update reads |
| SettingsProviders.EditorRoundTrip | backend/providers/settings_provider.cpp:190-202 | the `editor` section of a document restores the fields the update reads |
| SettingsProviders.GridRoundTrip | backend/providers/settings_provider.cpp:203-211 | the `grid` section of a document restores the fields the update reads |
| SettingsProviders.SettingsDocumentSections | backend/providers/settings_provider.cpp:162-170 | the `getSettings` document holds the general, editor and grid sections and no window section |
| SettingsProviders.SettingsRoundTrip | backend/providers/settings_provider.cpp:162-232 | sending the `getSettings` document back through `updateSettings` restores every field the update reads; the others, the window and the profiles stay as they were |
| SettingsProviders.UpdateSettingsOf | backend/providers/settings_provider.cpp:172-232 | the merged settings are handed to the manager and the response is the saved message |
| SettingsProviders.ToProfileResponse | backend/providers/settings_provider.cpp:69-94 | the response keeps the profile's identity and flags, carries no cipher text, and its SSH `savePassword` says whether either SSH secret is stored |
| SettingsProviders.ResponseOmitsSecrets | backend/providers/settings_provider.cpp:69-94 | profiles that differ only in their cipher texts, with the same SSH secrets present, give the same response |
| SettingsProviders.Built | backend/providers/settings_provider.cpp:244-292 | the saved profile always has an id: the request's, or `profile_` and the clock reading when it is empty |
| SettingsProviders.UpsertLookup | backend/providers/settings_provider.cpp:294-298 | after the upsert the id finds the saved profile, every other id finds what it found before, and the list grows by one exactly when the id was new |
| SettingsProviders.TrySetLookup | backend/providers/settings_provider.cpp:300-325 | an ignored-error setter changes only the profile with the id |
| SettingsProviders.SetGivenLookup | backend/providers/settings_provider.cpp:312-323 | a setter applied only to a non-empty supplied secret changes only the profile with the id |
| SettingsProviders.PasswordStepLookup | backend/providers/settings_provider.cpp:300-309 | the password step changes only the saved profile |
| SettingsProviders.SshStepLookup | backend/providers/settings_provider.cpp:311-328 | the SSH step changes only the saved profile |
| SettingsProviders.SavedProfileLookup | backend/providers/settings_provider.cpp:244-337 | after the save the saved id finds the saved profile and every other id finds what it found before |
| SettingsProviders.AppliedKeeps | backend/providers/settings_provider.cpp:300-328 | a setter changes only secrets, and `savePassword` only when the database password goes from stored to cleared or back |
| SettingsProviders.PasswordRecordKeeps | backend/providers/settings_provider.cpp:300-309 | the password step changes only the password: it is cleared without `savePassword` and kept when no password is supplied |
| SettingsProviders.SshSavedKeeps | backend/providers/settings_provider.cpp:312-323 | with SSH `savePassword` set, only the two SSH secrets can change |
| SettingsProviders.SshClearedKeeps | backend/providers/settings_provider.cpp:324-327 | clearing the SSH secrets changes nothing else |
| SettingsProviders.SshRecordKeeps | backend/providers/settings_provider.cpp:311-328 | the SSH step changes only SSH secrets, never the password, and nothing without an `ssh` section |
| SettingsProviders.SshRecordClears | backend/providers/settings_provider.cpp:324-327 | an `ssh` section without a true `savePassword` clears both SSH secrets |
| SettingsProviders.SavedRecordSecrets | backend/providers/settings_provider.cpp:300-328 | only the secrets of a saved profile may differ from the request's profile, each by the rule of its setter |
| SettingsProviders.SavedSecrets | backend/providers/settings_provider.cpp:244-328 | a secret the request does not supply is the default one, whatever was stored under the same id before |
| SettingsProviders.SavedSecretsEmpty | backend/providers/settings_provider.cpp:244-328 | with a default-constructed profile, whose secrets are empty, a password or SSH secret the request does not supply is saved empty |
| SettingsProviders.SavedIgnoresOld | backend/providers/settings_provider.cpp:294-298 | the saved profile does not depend on the list it is saved into: an update replaces the stored profile, secrets included |
| SettingsProviders.SavedPasswordReadsBack | backend/providers/settings_provider.cpp:300-306 | a password saved with the profile reads back through the decryption of its encryption |
| SettingsProviders.SshRoundTrip | backend/providers/settings_provider.cpp:274-288 | the SSH section of a response read back gives the SSH configuration with the default secrets |
| SettingsProviders.ProfileDocumentNames | backend/providers/settings_provider.cpp:129-133 | the profile document carries the id, name, server and database |
| SettingsProviders.ProfileDocumentText | backend/providers/settings_provider.cpp:129-133 | the profile document carries the user name, environment and database type |
| SettingsProviders.ProfileDocumentValues | backend/providers/settings_provider.cpp:129-133 | the profile document carries the port and the four flags |
| SettingsProviders.ProfileRoundTrip | backend/providers/settings_provider.cpp:234-292 | a profile of `getConnectionProfiles` sent back through `saveConnectionProfile` describes the same profile, with the default secrets the response does not carry |
| SettingsProviders.StorePassword | backend/providers/settings_provider.cpp:300-309 | the manager's profiles after the password step |
| SettingsProviders.StoreSshSecrets | backend/providers/settings_provider.cpp:311-328 | the manager's profiles after the SSH step |
| SettingsProviders.SaveProfileTo | backend/providers/settings_provider.cpp:244-337 | the upsert then the setters in order, errors ignored; the response carries the saved id |
| SettingsProviders.DeleteProfileFrom | backend/providers/settings_provider.cpp:339-356 | a missing id is an error that changes nothing; otherwise every profile with the id is removed and the response is a success |
| SettingsProviders.DeleteUnknown | backend/providers/settings_provider.cpp:349 | removing an id that no profile has leaves the list as it was |
| SettingsProviders.SecretResponseAfterSet | backend/providers/settings_provider.cpp:358-422 | a secret set on a profile is answered back by its getter |
| SettingsProviders.SecretResponseUnknown | backend/providers/settings_provider.cpp:358-422 | an unknown id is answered with the manager's "Profile not found" error |
| SettingsProviders.StringNodes | backend/providers/settings_provider.cpp:482-489 | the string elements of `expandedTreeNodes`, in order; no more elements than given and exactly the strings among them |
| SettingsProviders.SessionRebuilt | backend/providers/settings_provider.cpp:460-489 | the tabs and nodes never depend on the stored session: without their keys they are empty, and there is one tab per array element |
| SettingsProviders.ReadTabs | backend/providers/settings_provider.cpp:461-480 | the tab loop reads one tab per element |
| SettingsProviders.ReadNodes | backend/providers/settings_provider.cpp:483-489 | the node loop keeps the string elements |
| SettingsProviders.SaveSessionTo | backend/providers/settings_provider.cpp:434-500 | the manager's session is the one read from the request, its auto-save setting unchanged, and the response is the saved message |
| SettingsProviders.TabRoundTrip | backend/providers/settings_provider.cpp:461-480 | a tab written to its document and read back is the same tab |
| SettingsProviders.TabsRoundTrip | backend/providers/settings_provider.cpp:461-480 | a list of tabs written and read back is the same list |
| SettingsProviders.NodesRoundTrip | backend/providers/settings_provider.cpp:483-489 | a list of nodes written and read back is the same list |
| SettingsProviders.SessionDocumentText | backend/providers/settings_provider.cpp:135-141 | the session document carries the active connection, the active tab and the maximized flag |
| SettingsProviders.SessionDocumentWindow | backend/providers/settings_provider.cpp:135-141 | the session document carries the window position and width |
| SettingsProviders.SessionDocumentSizes | backend/providers/settings_provider.cpp:135-141 | the session document carries the window height and the panel sizes |
| SettingsProviders.ScalarsRoundTrip | backend/providers/settings_provider.cpp:434-459 | the scalar fields of a session document read back as the session's |
| SettingsProviders.SessionDocumentArrays | backend/providers/settings_provider.cpp:135-141 | the session document holds the tabs and nodes as arrays |
| SettingsProviders.SessionRoundTrip | backend/providers/settings_provider.cpp:424-500 | sending the `getSessionState` document back through `saveSessionState` restores the session exactly, whatever session it is applied to |
| SettingsProviders.SettingsProvider.constructor | backend/providers/settings_provider.cpp:153-156 | the provider's managers hold the loaded settings and session |
| SettingsProviders.SettingsProvider.UpdateSettings | backend/providers/settings_provider.cpp:172-232 | the merged settings and the saved message |
| SettingsProviders.SettingsProvider.SaveConnectionProfile | backend/providers/settings_provider.cpp:244-337 | the saved profiles and the id response |
| SettingsProviders.SettingsProvider.DeleteConnectionProfile | backend/providers/settings_provider.cpp:339-356 | the missing-id error with nothing changed, or every profile with the id removed |
| SettingsProviders.SettingsProvider.ReadSecret | backend/providers/settings_provider.cpp:358-422 | a request without an id is answered with the missing-id error |
| SettingsProviders.SettingsProvider.ConnectionProfiles | backend/providers/settings_provider.cpp:234-242 | one response per stored profile |
| SettingsProviders.SettingsProvider.SaveSessionState | backend/providers/settings_provider.cpp:434-500 | the session read from the request, with the auto-save setting unchanged |
| SettingsContexts.SettingsContext.constructor | backend/contexts/settings_context.cpp:24-27 | the context's managers hold the loaded settings and session |
| SettingsContexts.SettingsContext.HandleUpdateSettings | backend/contexts/settings_context.cpp:74-134 | the same merge as the provider, and the saved message |
| SettingsContexts.SettingsContext.HandleSaveConnectionProfile | backend/contexts/settings_context.cpp:173-266 | the same upsert and secret rules as the provider, and the id response |
| SettingsContexts.SettingsContext.HandleDeleteConnectionProfile | backend/contexts/settings_context.cpp:268-285 | the missing-id error with nothing changed, or every profile with the id removed and a success |
| SettingsContexts.SettingsContext.HandleReadSecret | backend/contexts/settings_context.cpp:287-351 | a request without an id is answered with the missing-id error |
| SettingsContexts.SettingsContext.HandleSaveSessionState | backend/contexts/settings_context.cpp:397-461 | the session rebuilt from the request as the provider does, with the auto-save setting unchanged |
| IoProviders.Entry | backend/providers/io_provider.cpp:185-199 | a stored entry is read back exactly when it has a string id; a missing or mistyped name or content reads as empty |
| IoProviders.Entries | backend/providers/io_provider.cpp:184-202 | the entries read back are, in order, those of stored elements with a string id, and no more than were stored |
| IoProviders.ReidAbsent | backend/providers/io_provider.cpp:193-200 | when no entry has the id, the replacing pass changes nothing |
| IoProviders.SavedListContents | backend/providers/io_provider.cpp:179-211 | after a save the bookmark is in the list, every entry with its id is exactly it, the other entries are those read back in order, and the list grows by one only when the id was new |
| IoProviders.ReidFilter | backend/providers/io_provider.cpp:193-200 | the replacing pass leaves the entries with other ids as they were |
| IoProviders.SavedAlone | backend/providers/io_provider.cpp:163-177 | without a readable array on disk the saved list is the bookmark alone |
| IoProviders.DeletedListContents | backend/providers/io_provider.cpp:251-269 | after a delete no entry has the id, and the kept entries are exactly those read back with another id |
| IoProviders.DeleteAbsent | backend/providers/io_provider.cpp:251-269 | deleting an id no entry has rewrites the entries as read |
| IoProviders.BookmarkReadBack | backend/providers/io_provider.cpp:19-21 | a bookmark written by `formatBookmarkJson` reads back as itself |
| IoProviders.ListReadBack | backend/providers/io_provider.cpp:179-211 | a written list of bookmarks reads back as itself |
| IoProviders.SaveThenDelete | backend/providers/io_provider.cpp:145-279 | saving the same bookmark again rewrites the same list, and deleting a saved bookmark leaves the other entries as they were read |
| IoProviders.SaveClose | backend/providers/io_provider.cpp:205-211 | the loop's text is completed by the bookmark, after a comma unless the list is empty, exactly when no entry had its id |
| IoProviders.MergedListText | backend/providers/io_provider.cpp:179-211 | the merge loop writes the text of the saved list |
| IoProviders.SaveBookmark | backend/providers/io_provider.cpp:145-221 | a request without the three fields is rejected and nothing is written; otherwise the saved list is written and the response is the write's error or a success |
| IoProviders.DeleteStep | backend/providers/io_provider.cpp:254-267 | an element without a string id or with the id is skipped; any other is kept |
| IoProviders.KeptListText | backend/providers/io_provider.cpp:251-269 | the filter loop writes the text of the list without the id |
| IoProviders.DeleteBookmark | backend/providers/io_provider.cpp:223-279 | a missing id is rejected; a missing file is a success with nothing written; a read error is passed on; content that is not an array is rejected; otherwise the entries without the id are written back and the response is the write's error or a success |
| Releases.DropWhile | scripts/_lib/release.py:19 | the longest suffix whose first character is not dropped: every character before it is dropped |
| Releases.DropLastWhile | scripts/_lib/release.py:19 | the longest prefix whose last character is not dropped: every character after it is dropped |
| Releases.VersionParts | scripts/_lib/release.py:28 | when every dotted part is a number, one number per part |
| Releases.IncrementVersion | scripts/_lib/release.py:26-34 | a result exactly when every part is a number and the bump reads only parts that exist |
| Releases.NumeralsParts | scripts/_lib/release.py:28 | three numerals joined by dots read back as their values |
| Releases.VersionTextParts | scripts/_lib/release.py:30-34 | the dotted form of three numbers reads back as those numbers |
| Releases.IncrementVersionParts | scripts/_lib/release.py:26-34 | a bumped version reads back as the bumped numbers: major resets minor and patch, minor resets patch, anything else bumps patch |
| Releases.BumpedNewer | scripts/_lib/release.py:26-34 | every bump of a three-part version gives a newer version |
| Releases.GetLatestTag | scripts/_lib/release.py:8-23 | no tag on a failed listing; otherwise the first listed line that is a version tag, without its `v` |
| Releases.FindVersionTag | scripts/_lib/release.py:20-23 | the loop returns the first version tag of the list, without its `v`, or none |
| Releases.VersionTagParts | scripts/_lib/release.py:21-22 | a version tag without its `v` is a three-part version |
| Releases.FirstVersionTagParts | scripts/_lib/release.py:20-23 | the tag picked is a three-part version, so every bump of it succeeds |
| Releases.CommitOf | scripts/_lib/release.py:50-52 | a line gives a commit exactly when it holds a `|`, and neither the message nor the hash holds one |
| Releases.CommitLineRoundTrip | scripts/_lib/release.py:40-52 | a line in the log format gives back its message and hash, whatever the author name holds |
| Releases.Commits | scripts/_lib/release.py:49-52 | no more commits than lines |
| Releases.GetCommits | scripts/_lib/release.py:37-53 | no commits on a failed log or blank output; otherwise those of the log lines |
| Releases.ParseCommitLines | scripts/_lib/release.py:48-53 | the loop returns the commits of the lines, in order |
| Releases.Category | scripts/_lib/release.py:66-79 | the category is one of the six keys, and any but `other` is a prefix of the message |
| Releases.CategorizeCommits | scripts/_lib/release.py:56-80 | every key is present and holds, in order, the messages of its category |
| Releases.CategorizeStep | scripts/_lib/release.py:66-79 | one message is appended to the bucket of its category and no other |
| Releases.BucketMembers | scripts/_lib/release.py:56-80 | a message sits in the bucket of its category and in no other |
| Releases.BucketsPartition | scripts/_lib/release.py:56-80 | the buckets together hold every message exactly once |
| Releases.AppendSection | scripts/_lib/release.py:91-117 | one section loop appends the heading, one bullet per message with its prefix removed, and a blank line, only when there are messages |
| Releases.GenerateReleaseNotes | scripts/_lib/release.py:83-119 | without a previous tag the notes are the header alone; otherwise the header and the four sections for the commits since that tag, joined by line breaks |
| Releases.SectionItems | scripts/_lib/release.py:91-96 | the bullet lines of one section are its cleaned messages |
| Releases.NotesItems | scripts/_lib/release.py:87-117 | the bullet lines of the notes are the cleaned messages of the features, fixes, performance and refactoring commits, in that order; documentation and other commits never appear |
| Releases.SectionsItems | scripts/_lib/release.py:91-117 | the bullets of the four sections are their items in order |

## Left out

- ODBC itself is not modelled: connecting, executing, fetching, cancelling and diagnostics. Each call's outcome is a parameter (a return code, a result set or an error text), and the driver's result sets are taken as given. An outcome depends only on the statement text. The effect of a `USE` on the later statements of the same batch (the database they run in) is therefore not visible in the model.
- The Win32 `GetStringTypeW` test in `isUnicodeAlphaNumeric` is a parameter `alnum`. Text is modelled as UTF-16 code units, and the UTF-8/UTF-16 conversions in backend/utils/encoding.h and backend/database/odbc_unicode.h are not part of this model.
- Requests are not parsed. A request is a `Result<Json>`: the parsed document as a map of optional typed fields, or the parser's error. A handler that only reads fields sees a request that does not parse as one with no fields. The glaze serialisation in backend/utils/glaze_meta.h is not part of this model. The `get` responses of the settings handlers are modelled as the documents they denote.
- Locks, atomics, futures and interleavings are left out, because the model is sequential. The executor and the driver run one call at a time, and background completion is an explicit action. The executor destructor's cancel-and-wait loop (backend/database/async_query_executor.cpp:9-32) is left out as well.
- AsyncExecutor.AsyncQueryExecutor.GetQueryResult: the `catch (...)` branch that reports "Failed to retrieve result" (backend/database/async_query_executor.cpp:138-141) is not modelled, because the background work already catches every exception and finishes as Failed.
- Floating point is left out. This covers execution times, the cache usage percentage of `handleGetCacheStats` (backend/providers/query_provider.cpp:314-320), and the A5:ER positions and sizes read with `getPropDouble` (backend/parsers/a5er_parser.cpp:477-484, 550-551, 604-607). An execution time appears in the model only as text passed in.
- Clocks are integer parameters: eviction times, the `profile_<ticks>` and `hist_<ticks>` ids, and `lastSaved`.
- Exception messages (`e.what()`) are text parameters.
- The `std::regex` of `parseSQL` is not a regex engine here. Its single `USE` pattern is hand-coded as a matcher over ASCII word characters and ASCII white space.
- The `ConnectionRegistry` is modelled as declared in backend/database/connection_registry.h, with `add(driver)` and `get(id)`. Its callers use a query/metadata driver pair, which appears only in the connect orchestration of `ConnectionProviders`.
- `ResultCache`, `QueryHistory`, `SIMDFilter`, `TransactionManager`, `SshTunnel` and `buildDriverConnectionPrefix` are not part of this model. They appear only through the calls the modelled code makes: a tunnel is an outcome, a transaction manager is a flag, and the result cache and the query history are fields of the provider and context classes, a map and a list (see the next line).
- The result cache is a map from keys to results that never evicts: `ResultCache`'s size limit (`getMaxSize`, used at backend/providers/query_provider.cpp:316) and its eviction are not part of this model. QueryProviders.SecondCallHits therefore speaks of a second call made while the entry is still cached, right after the first call stored it.
- `handleGetCacheStats`, `handleClearCache` and `handleGetQueryHistory` (backend/providers/query_provider.cpp:314-334) are left out, because they only forward to the cache and history classes above.
- The per-table catalog handlers of backend/providers/schema_provider.cpp:82-444 are left out. These are tables, columns, indexes, constraints, foreign keys, referencing foreign keys and triggers. Each one is fixed query text followed by `buildRowArray`, and both of those are modelled.
- Several handlers of backend/contexts/database_context.cpp are left out of the context class. Each has an equivalent in the providers that is modelled or listed above, or depends on a class that is not part of this model:
  - connect, test connection, row count and cancel (167-484);
  - the asynchronous query handlers (486-642);
  - tables, columns, indexes, constraints, foreign keys and triggers (672-1075);
  - table metadata (1077) and the execution plan (1211);
  - cache statistics, clear cache, history and result filtering (1342-1440).
- Reading and writing files is left out. This covers settings and session `load`, `save`, `getSettingsPath` and (de)serialisation (backend/utils/settings_manager.cpp:34-72, 146-148, 222-238), and the bookmark file. The bookmark file's contents are a parameter and its write error an outcome.
- `handleWriteFrontendLog`, `handleSaveQueryToFile`, `handleLoadQueryFromFile`, `handleBrowseFile` and `handleGetBookmarks` (backend/providers/io_provider.cpp:25-143) are left out. They are log, file-dialog and file I/O with no logic beyond it.
- The credential protector's encryption is a pair of parameters, `encrypt` and `decrypt`, that may fail.
- The XML format of A5:ER files (`parseXmlFormat`, backend/parsers/a5er_parser.cpp:269-340, written with pugixml) is a parameter `parseXml`. `parseFile` (248-255), which only reads the file, is left out.
- The release script's subprocess calls and command line are left out. Git's return codes and output are parameters. Python's `int()` is modelled on ASCII digit strings only, so signs, spaces, underscores and non-ASCII digits are excluded, and the model's `\d` matches ASCII digits only, where Python's matches any Unicode decimal digit. The commit author field (`%an`) is split off and never used.
- The texts of the catalog queries in SchemaProviders are written on one line, where the source spreads them over several lines of its string literals. Only whitespace differs; the parts that carry the request's values are as in the handlers.
- QueryProviders.PageQuery: the page bounds are unbounded integers. The source reads `startRow` and `endRow` as `int64_t` and writes `endRow - startRow` (backend/providers/query_provider.cpp:164-169, 194-196; backend/contexts/database_context.cpp:399-404, 428-431). A difference outside the 64-bit range overflows there, for example `startRow` = -9223372036854775808 with `endRow` = 0. The model writes the exact difference instead.
- ConnectionRegistries.ConnectionRegistry.Add: the counter is an unbounded `nat`. The source's counter is a `std::atomic<int>` starting at 1 (backend/database/connection_registry.h:58), and its `fetch_add` wraps past `INT_MAX`. After 2^32 additions the source hands out an id again, so "an id never handed out before" holds only for the unbounded counter.
- ConnectionPools.ConnectionPool.AddConnection: the test connection uses the braced string `ConnectionPools.ConnectionString`, the corrected builder of the third finding below. The source tests the unbraced `buildConnectionString` (backend/database/connection_pool.cpp:41), modelled as `ConnectionPools.ConnectionStringAsWritten`. The two differ for PostgreSQL and MySQL, where the source leaves the host, port and database unbraced.
- ConnectionPools.ConnectionPool.Acquire: the driver connects on the braced string, while the source uses the unbraced `buildConnectionString` (backend/database/connection_pool.cpp:67). The difference is the same as for AddConnection.
- ConnectionPools.ConnectionPool.TestConnection: the connection is tried on the braced string, while the source uses the unbraced `buildConnectionString` (backend/database/connection_pool.cpp:89). The difference is the same as for AddConnection.
- SettingsProviders.SettingsProvider.ReadSecret: the method's own contract covers only the missing-id error. The other answers are stated by SettingsProviders.SecretResponseAfterSet and SettingsProviders.SecretResponseUnknown.
- SettingsContexts.SettingsContext.HandleReadSecret: the contract covers only the missing-id error, as for the provider. Both answer with the same `SecretResponse`.
- SettingsProviders.SettingsProvider.ConnectionProfiles: the contract states only the number of profiles. Their content is stated by SettingsProviders.ToProfileResponse.
- A5erParser.ToErModel: the contract states only that the name, database type and relations are kept and the table and shape counts are unchanged. The colours and the rest of the structure are in A5erParser.ErColors and A5erParser.ErKeepsStructure.
- A5erParser.QuotedValue: the contract states only that the rest is no longer than the input. The value read is stated by A5erParser.QuotedValueOf.
- A5erParser.IndexOfLine: the contract states only that a line is an index exactly when it holds `=`, and that the name holds no `=`. The read-back of a well-formed line is A5erParser.IndexLineRoundTrip.
- Releases.Commits: the contract states only that there are no more commits than lines. Which lines are kept and their fields are stated by Releases.ParseCommitLines and Releases.CommitLineRoundTrip.
- Releases.VersionParts: the contract states only the number of parts. The parsed numbers are stated by Releases.NumeralsParts and Releases.VersionTextParts.

## Findings

| source | as written | input that shows it | evidently intended | confidence | as-written member | corrected member |
|---|---|---|---|---|---|---|
| backend/contexts/database_context.cpp:658-663 | the database list writes a comma before every row index above 0, but skips empty rows | rows `[]` then `["x"]` give `[,"x"]`, which is not JSON | a comma only between names written, as `buildRowArray` does | high, not executed | DatabaseContexts.DatabaseNamesCounterexample | DatabaseContexts.DatabaseContext.HandleGetDatabases |
| backend/contexts/database_context.cpp:1158-1163 | the DDL column loop writes `,` and a line break before every row index above 0, but skips short rows | a short row, then one full row: the only column is preceded by a separator, so the DDL is malformed | a separator only between columns written, as the schema provider's `first` flag does | high, not executed | DatabaseContexts.ColumnsCounterexample | DatabaseContexts.WriteContextColumns |
| backend/database/connection_pool.cpp:103-127 | for PostgreSQL and MySQL the host, port and database go into the connection string without brace escaping | server `h,5432;Database=x` with database `y` and server `h,5432` with database `x;Database=y` give the same string | every value braced, as `buildODBCConnectionString` does in backend/database/connection_utils.cpp | medium, not executed | ConnectionPools.ConnectionStringAsWrittenAmbiguous | ConnectionPools.ConnectionStringAttributes |
