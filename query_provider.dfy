/** The query handlers (`QueryProvider`): run a batch or a single
    statement, answer a `USE` with the synthetic message result, serve
    read-only queries from the result cache, and build the texts of the
    paginated, row-count and filter requests.

    The driver is represented by `run`: what executing a text on the
    connection's query driver gives, a result or the message of the
    exception it throws. The result cache is a map from keys to results;
    its size bound and eviction are not part of this model. The execution
    time of a result is written as the given `timeText`. */
module QueryProviders {
  import opened Wrappers
  import opened Strings
  import opened Lists
  import opened Requests
  import opened ResultSets
  import opened JsonUtils
  import opened SqlParser
  import opened SqlValidation
  import opened ConnectionUtils

  const MissingSql: seq<char> := "Missing required fields: connectionId or sql"

  /** The connection id and the SQL text a request names, or the error
      the handlers answer with. */
  function SqlRequest(request: Result<Json>): (r: Result<(seq<char>, seq<char>)>)
    ensures r.Ok? <==> GetString(Fields(request), "connectionId").Some? && GetString(Fields(request), "sql").Some?
    ensures r.Ok? ==> r.value == (GetString(Fields(request), "connectionId").value, GetString(Fields(request), "sql").value)
    ensures r.Err? ==> r.error == MissingSql
  {
    match (GetString(Fields(request), "connectionId"), GetString(Fields(request), "sql"))
    case (Some(id), Some(sql)) => Ok((id, sql))
    case _ => Err(MissingSql)
  }

  function NotFound(id: seq<char>): seq<char> {
    "Connection not found: " + id
  }

  // ---------------------------------------------------------------------------
  // Batches
  // ---------------------------------------------------------------------------

  /** One statement of a batch. A `USE` is executed for its effect, its own
      result dropped, and answered with the message result. */
  function StatementResult(stmt: seq<char>, run: seq<char> -> Result<ResultSet>): Result<ResultSet> {
    if IsUseStatement(stmt) then
      match run(stmt)
      case Err(e) => Err(e)
      case Ok(_) => Ok(UseResult(ExtractDatabaseName(stmt)))
    else run(stmt)
  }

  /** The message of a failed batch, `k` counting from 1. */
  function StatementError(k: nat, n: nat, message: seq<char>): seq<char> {
    "Statement " + NatToString(k) + " of " + NatToString(n) + ": " + message
  }

  /** The runner of a batch's statements. */
  function Runner(run: seq<char> -> Result<ResultSet>): seq<char> -> Result<ResultSet> {
    stmt => StatementResult(stmt, run)
  }

  /** The first `k` statements of a batch, each run by `step`, in order. The results are
      collected in statement order; the first failure stops the batch and
      is reported with its position. */
  function RunPrefix(stmts: seq<seq<char>>, k: nat, step: seq<char> -> Result<ResultSet>): (r: Result<seq<ResultSet>>)
    requires k <= |stmts|
    ensures r.Ok? ==> |r.value| == k
  {
    if k == 0 then Ok([])
    else
      match RunPrefix(stmts, k - 1, step)
      case Err(e) => Err(e)
      case Ok(results) =>
        match step(stmts[k - 1])
        case Err(e) => Err(StatementError(k, |stmts|, e))
        case Ok(result) => Ok(results + [result])
  }

  /** A batch succeeds exactly when every statement does, with their
      results in statement order. */
  lemma {:induction false} RunPrefixOk(stmts: seq<seq<char>>, k: nat, step: seq<char> -> Result<ResultSet>)
    requires k <= |stmts|
    ensures RunPrefix(stmts, k, step).Ok? <==> forall j :: 0 <= j < k ==> step(stmts[j]).Ok?
    ensures RunPrefix(stmts, k, step).Ok? ==>
              forall j :: 0 <= j < k ==> step(stmts[j]) == Ok(RunPrefix(stmts, k, step).value[j])
  {
    if k > 0 {
      RunPrefixOk(stmts, k - 1, step);
      var prev := RunPrefix(stmts, k - 1, step);
      var current := step(stmts[k - 1]);
      if prev.Err? {
        var j :| 0 <= j < k - 1 && step(stmts[j]).Err?;
        assert RunPrefix(stmts, k, step).Err?;
      } else if current.Err? {
        assert RunPrefix(stmts, k, step).Err?;
      } else {
        var results := prev.value + [current.value];
        assert RunPrefix(stmts, k, step) == Ok(results);
        assert forall j :: 0 <= j < k - 1 ==> results[j] == prev.value[j];
      }
    }
  }

  /** A failed batch reports the first statement that failed, counting
      from 1. */
  lemma {:induction false} FirstFailure(stmts: seq<seq<char>>, k: nat, step: seq<char> -> Result<ResultSet>) returns (j: nat)
    requires k <= |stmts| && RunPrefix(stmts, k, step).Err?
    ensures j < k && step(stmts[j]).Err?
    ensures forall i :: 0 <= i < j ==> step(stmts[i]).Ok?
    ensures RunPrefix(stmts, k, step).error == StatementError(j + 1, |stmts|, step(stmts[j]).error)
  {
    var prev := RunPrefix(stmts, k - 1, step);
    if prev.Err? {
      j := FirstFailure(stmts, k - 1, step);
    } else {
      RunPrefixOk(stmts, k - 1, step);
      j := k - 1;
    }
  }

  /** Once a statement has failed, the later ones are not run: the batch's
      outcome is that failure. */
  lemma {:induction false} FailureStops(stmts: seq<seq<char>>, k: nat, n: nat, step: seq<char> -> Result<ResultSet>)
    requires k <= n <= |stmts|
    requires RunPrefix(stmts, k, step).Err?
    ensures RunPrefix(stmts, n, step) == RunPrefix(stmts, k, step)
  {
    if k < n {
      FailureStops(stmts, k, n - 1, step);
    }
  }

  /** One statement of the loop of `handleExecuteQuery`. */
  method RunStatement(stmt: seq<char>, run: seq<char> -> Result<ResultSet>) returns (r: Result<ResultSet>)
    ensures r == StatementResult(stmt, run)
  {
    if IsUseStatement(stmt) {
      var database := ExtractDatabaseName(stmt);
      var executed := run(stmt);
      if executed.Err? {
        return Err(executed.error);
      }
      return Ok(UseResult(database));
    }
    r := run(stmt);
  }

  /** The statement loop of `handleExecuteQuery`: early exit on the first
      exception. */
  method RunStatements(stmts: seq<seq<char>>, run: seq<char> -> Result<ResultSet>) returns (r: Result<seq<ResultSet>>)
    ensures r == RunPrefix(stmts, |stmts|, Runner(run))
  {
    var results: seq<ResultSet> := [];
    for k := 0 to |stmts|
      invariant RunPrefix(stmts, k, Runner(run)) == Ok(results)
    {
      var current := RunStatement(stmts[k], run);
      assert Runner(run)(stmts[k]) == current;
      if current.Err? {
        FailureStops(stmts, k + 1, |stmts|, Runner(run));
        return Err(StatementError(k + 1, |stmts|, current.error));
      }
      results := results + [current.value];
    }
    return Ok(results);
  }

  /** One entry of the batch answer: the statement and its serialized
      result. */
  function ResultItem(stmt: seq<char>, result: ResultSet, timeText: seq<char>): seq<char> {
    "{\"statement\":\"" + Escape(stmt) + "\",\"data\":" + SerializeResult(result, false, timeText) + "}"
  }

  function ItemWriter(timeText: seq<char>): ((seq<char>, ResultSet)) -> seq<char> {
    (p: (seq<char>, ResultSet)) => ResultItem(p.0, p.1, timeText)
  }

  /** Statements paired with their results, in order. */
  function Pairs(stmts: seq<seq<char>>, results: seq<ResultSet>): (r: seq<(seq<char>, ResultSet)>)
    requires |stmts| == |results|
    ensures |r| == |stmts| && forall j :: 0 <= j < |r| ==> r[j] == (stmts[j], results[j])
  {
    seq(|stmts|, j requires 0 <= j < |stmts| => (stmts[j], results[j]))
  }

  /** The answer to a batch: every statement with its result, in order. */
  function MultipleResults(pairs: seq<(seq<char>, ResultSet)>, timeText: seq<char>): seq<char> {
    "{\"multipleResults\":true,\"results\":" + ArrayText(pairs, ItemWriter(timeText)) + "}"
  }

  /** The answer loop of a batch, a comma before every entry but the first. */
  method BuildMultipleResults(pairs: seq<(seq<char>, ResultSet)>, timeText: seq<char>) returns (json: seq<char>)
    ensures json == MultipleResults(pairs, timeText)
  {
    var items := "";
    for i := 0 to |pairs|
      invariant items == Join(Map(pairs[..i], ItemWriter(timeText)), ",")
    {
      JoinMapStep(pairs, i, ItemWriter(timeText));
      var sep := if i > 0 then "," else "";
      items := items + (sep + ResultItem(pairs[i].0, pairs[i].1, timeText));
    }
    assert pairs[..|pairs|] == pairs;
    json := "{\"multipleResults\":true,\"results\":" + ("[" + items + "]") + "}";
  }

  // ---------------------------------------------------------------------------
  // The result cache
  // ---------------------------------------------------------------------------

  /** The cache key: the connection id, a NUL character, then the text. */
  function CacheKey(id: seq<char>, sql: seq<char>): seq<char> {
    id + ['\0'] + sql
  }

  /** The first NUL of a key is the one after the connection id. */
  lemma NulEndsId(id: seq<char>, sql: seq<char>)
    requires '\0' !in id
    ensures CacheKey(id, sql)[|id|] == '\0'
    ensures forall k :: 0 <= k < |id| ==> CacheKey(id, sql)[k] != '\0'
  {
    assert forall k :: 0 <= k < |id| ==> CacheKey(id, sql)[k] == id[k];
  }

  /** Connection ids never hold a NUL, so a key names one connection and one
      text. */
  lemma CacheKeyInjective(id: seq<char>, sql: seq<char>, id': seq<char>, sql': seq<char>)
    requires '\0' !in id && '\0' !in id'
    requires CacheKey(id, sql) == CacheKey(id', sql')
    ensures id == id' && sql == sql'
  {
    var key := CacheKey(id, sql);
    NulEndsId(id, sql);
    NulEndsId(id', sql');
    assert |id| == |id'|;
    assert id == key[..|id|] == id';
    assert sql == key[|id| + 1..] == sql';
  }

  /** The cache is consulted and filled only for read-only texts, and only
      when the request does not turn it off. */
  predicate UsesCache(doc: Json, sql: seq<char>) {
    BoolOr(doc, "useCache", true) && IsReadOnlyQuery(sql)
  }

  /** The answer to a batch: every result, or the first failure. */
  function BatchResponse(stmts: seq<seq<char>>, run: seq<char> -> Result<ResultSet>, timeText: seq<char>): seq<char> {
    match RunPrefix(stmts, |stmts|, Runner(run))
    case Err(e) => ErrorResponse(e)
    case Ok(results) => SuccessResponse(MultipleResults(Pairs(stmts, results), timeText))
  }

  /** The answer to a single `USE`: the message result, or the failure to
      switch. */
  function UseResponse(sql: seq<char>, run: seq<char> -> Result<ResultSet>, timeText: seq<char>): seq<char> {
    match run(sql)
    case Err(e) => ErrorResponse("Failed to switch database: " + e)
    case Ok(_) => SuccessResponse(SerializeResult(UseResult(ExtractDatabaseName(sql)), false, timeText))
  }

  method ExecuteBatch(stmts: seq<seq<char>>, run: seq<char> -> Result<ResultSet>, timeText: seq<char>) returns (response: seq<char>)
    ensures response == BatchResponse(stmts, run, timeText)
  {
    var all := RunStatements(stmts, run);
    if all.Err? {
      return ErrorResponse(all.error);
    }
    var json := BuildMultipleResults(Pairs(stmts, all.value), timeText);
    response := SuccessResponse(json);
  }

  method SwitchDatabase(sql: seq<char>, run: seq<char> -> Result<ResultSet>, timeText: seq<char>) returns (response: seq<char>)
    ensures response == UseResponse(sql, run, timeText)
  {
    var database := ExtractDatabaseName(sql);
    var executed := run(sql);
    if executed.Err? {
      return ErrorResponse("Failed to switch database: " + executed.error);
    }
    var json := SerializeResultSet(UseResult(database), false, timeText);
    response := SuccessResponse(json);
  }

  /** What `handleExecuteQuery` does: its answer, the entry it stores in
      the cache if any, and whether it records the text in the history. */
  datatype Execution = Execution(response: seq<char>, store: Option<(seq<char>, ResultSet)>, logged: bool)

  function ExecuteQuery(request: Result<Json>, connections: set<seq<char>>, cache: map<seq<char>, ResultSet>,
                        run: seq<char> -> Result<ResultSet>, timeText: seq<char>): (x: Execution)
    ensures x.store.Some? ==> x.logged
    ensures x.logged ==> SqlRequest(request).Ok? && SqlRequest(request).value.0 in connections
                         && |Statements(SqlRequest(request).value.1)| <= 1
                         && run(SqlRequest(request).value.1).Ok?
  {
    match SqlRequest(request)
    case Err(e) => Execution(ErrorResponse(e), None, false)
    case Ok((id, sql)) =>
      if id !in connections then Execution(ErrorResponse(NotFound(id)), None, false)
      else
        var stmts := Statements(sql);
        if |stmts| > 1 then Execution(BatchResponse(stmts, run, timeText), None, false)
        else if IsUseStatement(sql) then Execution(UseResponse(sql, run, timeText), None, false)
        else CachedExecution(Fields(request), id, sql, cache, run, timeText)
  }

  /** A single statement other than `USE`: served from the cache when it
      is eligible and present, otherwise executed, stored when eligible, and
      recorded. */
  function CachedExecution(doc: Json, id: seq<char>, sql: seq<char>, cache: map<seq<char>, ResultSet>,
                           run: seq<char> -> Result<ResultSet>, timeText: seq<char>): (x: Execution)
    ensures x.store.Some? ==> x.logged
    ensures x.logged ==> run(sql).Ok?
  {
    var key := CacheKey(id, sql);
    var eligible := UsesCache(doc, sql);
    if eligible && key in cache then Execution(SuccessResponse(SerializeResult(cache[key], true, timeText)), None, false)
    else
      match run(sql)
      case Err(e) => Execution(ErrorResponse(e), None, false)
      case Ok(result) =>
        Execution(SuccessResponse(SerializeResult(result, false, timeText)), if eligible then Some((key, result)) else None, true)
  }

  /** A cache entry is written only for an eligible text, under its key,
      and only with the result of a successful execution. */
  lemma StoresOnlySuccess(request: Result<Json>, connections: set<seq<char>>, cache: map<seq<char>, ResultSet>,
                          run: seq<char> -> Result<ResultSet>, timeText: seq<char>)
    requires ExecuteQuery(request, connections, cache, run, timeText).store.Some?
    ensures var (id, sql) := SqlRequest(request).value;
            var (key, result) := ExecuteQuery(request, connections, cache, run, timeText).store.value;
            UsesCache(Fields(request), sql) && !IsUseStatement(sql) && key == CacheKey(id, sql) && key !in cache
            && run(sql) == Ok(result)
  {
  }

  /** A cache hit answers with the stored result marked as cached, without
      consulting the driver: any two drivers give the same answer. */
  lemma HitSkipsDriver(request: Result<Json>, connections: set<seq<char>>, cache: map<seq<char>, ResultSet>,
                       run: seq<char> -> Result<ResultSet>, run': seq<char> -> Result<ResultSet>, timeText: seq<char>)
    requires SqlRequest(request).Ok? && SqlRequest(request).value.0 in connections
    requires var (id, sql) := SqlRequest(request).value;
             |Statements(sql)| <= 1 && !IsUseStatement(sql) && UsesCache(Fields(request), sql) && CacheKey(id, sql) in cache
    ensures var (id, sql) := SqlRequest(request).value;
            var x := ExecuteQuery(request, connections, cache, run, timeText);
            x == ExecuteQuery(request, connections, cache, run', timeText)
            && x.response == SuccessResponse(SerializeResult(cache[CacheKey(id, sql)], true, timeText))
            && x.store.None? && !x.logged
  {
  }

  /** Asking the same read-only query again while its entry is still
      cached (here: right after the first call stored it): the second
      answer is the first result, served from the cache. */
  lemma SecondCallHits(request: Result<Json>, connections: set<seq<char>>, cache: map<seq<char>, ResultSet>,
                       run: seq<char> -> Result<ResultSet>, run': seq<char> -> Result<ResultSet>, timeText: seq<char>)
    requires ExecuteQuery(request, connections, cache, run, timeText).store.Some?
    ensures var (key, result) := ExecuteQuery(request, connections, cache, run, timeText).store.value;
            ExecuteQuery(request, connections, cache[key := result], run', timeText).response
              == SuccessResponse(SerializeResult(result, true, timeText))
  {
    StoresOnlySuccess(request, connections, cache, run, timeText);
    var (key, result) := ExecuteQuery(request, connections, cache, run, timeText).store.value;
    HitSkipsDriver(request, connections, cache[key := result], run', run', timeText);
  }

  /** A batch of several statements whose statements all succeed answers
      with every statement and its result, in order; it is never cached nor
      recorded. */
  lemma BatchSuccess(request: Result<Json>, connections: set<seq<char>>, cache: map<seq<char>, ResultSet>,
                     run: seq<char> -> Result<ResultSet>, timeText: seq<char>) returns (results: seq<ResultSet>)
    requires SqlRequest(request).Ok? && SqlRequest(request).value.0 in connections
    requires |Statements(SqlRequest(request).value.1)| > 1
    requires var stmts := Statements(SqlRequest(request).value.1);
             forall j :: 0 <= j < |stmts| ==> StatementResult(stmts[j], run).Ok?
    ensures var stmts := Statements(SqlRequest(request).value.1);
            var x := ExecuteQuery(request, connections, cache, run, timeText);
            |results| == |stmts| && (forall j :: 0 <= j < |stmts| ==> StatementResult(stmts[j], run) == Ok(results[j]))
            && x == Execution(SuccessResponse(MultipleResults(Pairs(stmts, results), timeText)), None, false)
  {
    var stmts := Statements(SqlRequest(request).value.1);
    RunPrefixOk(stmts, |stmts|, Runner(run));
    results := RunPrefix(stmts, |stmts|, Runner(run)).value;
  }

  /** A batch in which some statement fails answers with the first failure
      and its position; nothing is cached nor recorded. */
  lemma BatchFailure(request: Result<Json>, connections: set<seq<char>>, cache: map<seq<char>, ResultSet>,
                     run: seq<char> -> Result<ResultSet>, timeText: seq<char>) returns (j: nat)
    requires SqlRequest(request).Ok? && SqlRequest(request).value.0 in connections
    requires |Statements(SqlRequest(request).value.1)| > 1
    requires var stmts := Statements(SqlRequest(request).value.1);
             !forall i :: 0 <= i < |stmts| ==> StatementResult(stmts[i], run).Ok?
    ensures var stmts := Statements(SqlRequest(request).value.1);
            var x := ExecuteQuery(request, connections, cache, run, timeText);
            j < |stmts| && StatementResult(stmts[j], run).Err?
            && (forall i :: 0 <= i < j ==> StatementResult(stmts[i], run).Ok?)
            && x == Execution(ErrorResponse(StatementError(j + 1, |stmts|, StatementResult(stmts[j], run).error)), None, false)
  {
    var stmts := Statements(SqlRequest(request).value.1);
    RunPrefixOk(stmts, |stmts|, Runner(run));
    j := FirstFailure(stmts, |stmts|, Runner(run));
  }

  // ---------------------------------------------------------------------------
  // Pagination
  // ---------------------------------------------------------------------------

  /** One sort item: the quoted column and its direction, when the item has
      both fields. */
  function SortPiece(item: Json, quote: seq<char> -> seq<char>): (r: Option<seq<char>>)
    ensures r.Some? <==> GetString(item, "colId").Some? && GetString(item, "sort").Some?
    ensures r.Some? ==> (EndsWith(r.value, " ASC") <==> GetString(item, "sort").value == "asc")
    ensures r.Some? ==> r.value != []
  {
    match (GetString(item, "colId"), GetString(item, "sort"))
    case (Some(column), Some(sort)) =>
      var direction := if sort == "asc" then "ASC" else "DESC";
      var r := quote(column) + " " + direction;
      assert r[|r| - 4..] == (if sort == "asc" then " ASC" else "DESC");
      Some(r)
    case _ => None
  }

  /** The pieces of the usable sort items, in order. */
  function SortPieces(items: seq<Json>, quote: seq<char> -> seq<char>): (r: seq<seq<char>>)
    ensures forall k :: 0 <= k < |r| ==> r[k] != []
    ensures r == [] <==> forall j :: 0 <= j < |items| ==> SortPiece(items[j], quote).None?
  {
    if items == [] then []
    else
      var init := SortPieces(items[..|items| - 1], quote);
      assert forall j :: 0 <= j < |items| - 1 ==> items[..|items| - 1][j] == items[j];
      match SortPiece(items[|items| - 1], quote)
      case None => init
      case Some(p) => init + [p]
  }

  lemma SortPiecesStep(items: seq<Json>, i: nat, quote: seq<char> -> seq<char>)
    requires i < |items|
    ensures SortPieces(items[..i + 1], quote)
            == SortPieces(items[..i], quote) + (if SortPiece(items[i], quote).Some? then [SortPiece(items[i], quote).value] else [])
  {
    assert items[..i + 1][..i] == items[..i];
  }

  /** The sort loop: `, ` before every clause but the first. */
  method WriteSortClauses(items: seq<Json>, quote: seq<char> -> seq<char>) returns (clauses: seq<char>)
    ensures clauses == Join(SortPieces(items, quote), ", ")
  {
    clauses := [];
    for i := 0 to |items|
      invariant clauses == Join(SortPieces(items[..i], quote), ", ")
      invariant clauses == [] <==> SortPieces(items[..i], quote) == []
    {
      SortPiecesStep(items, i, quote);
      var pieces := SortPieces(items[..i], quote);
      var piece := SortPiece(items[i], quote);
      if piece.Some? {
        var next := pieces + [piece.value];
        if clauses != [] {
          JoinSnoc(pieces, piece.value, ", ");
          clauses := clauses + ", " + piece.value;
        } else {
          assert next == [piece.value];
          clauses := piece.value;
        }
        assert clauses == Join(next, ", ");
      } else {
        assert pieces + [] == pieces;
      }
    }
    assert items[..|items|] == items;
  }

  /** The `ORDER BY` clause of a page, empty when no sort item is usable. */
  function OrderBy(doc: Json, quote: seq<char> -> seq<char>): seq<char> {
    match GetArray(doc, "sortModel")
    case None => []
    case Some(items) =>
      var clauses := Join(SortPieces(items, quote), ", ");
      if clauses == [] then [] else " ORDER BY " + clauses
  }

  /** The text that fetches a page: the query, its order (the neutral
      `ORDER BY (SELECT NULL)` when none is given), then `end - start` rows
      from row `start`. */
  function PageQuery(sql: seq<char>, orderBy: seq<char>, start: int, end: int): seq<char> {
    sql + (if orderBy == [] then " ORDER BY (SELECT NULL)" else orderBy)
    + " OFFSET " + IntToString(start) + " ROWS FETCH NEXT " + IntToString(end - start) + " ROWS ONLY"
  }

  /** The page bounds, 0 and 100 unless given. */
  function PageBounds(doc: Json): (int, int) {
    (match GetInt64(doc, "startRow") case Some(s) => s case None => 0,
     match GetInt64(doc, "endRow") case Some(e) => e case None => 100)
  }

  /** `handleExecuteQueryPaginated`, `quote` being the identifier quoting
      the handler uses for sort columns. */
  function PaginatedResponse(request: Result<Json>, connections: set<seq<char>>, quote: seq<char> -> seq<char>,
                             run: seq<char> -> Result<ResultSet>, timeText: seq<char>): (response: seq<char>)
    ensures SqlRequest(request).Err? ==> response == ErrorResponse(SqlRequest(request).error)
    ensures SqlRequest(request).Ok? && SqlRequest(request).value.0 !in connections ==>
              response == ErrorResponse(NotFound(SqlRequest(request).value.0))
  {
    match SqlRequest(request)
    case Err(e) => ErrorResponse(e)
    case Ok((id, sql)) =>
      var (start, end) := PageBounds(Fields(request));
      var query := PageQuery(sql, OrderBy(Fields(request), quote), start, end);
      if id !in connections then ErrorResponse(NotFound(id))
      else
        match run(query)
        case Err(e) => ErrorResponse(e)
        case Ok(result) => SuccessResponse(SerializeResult(result, false, timeText))
  }

  /** The neutral order is used exactly when no sort item is usable. */
  lemma OrderByEmpty(doc: Json, quote: seq<char> -> seq<char>)
    ensures OrderBy(doc, quote) == [] <==>
              GetArray(doc, "sortModel").None?
              || forall j :: 0 <= j < |GetArray(doc, "sortModel").value| ==> SortPiece(GetArray(doc, "sortModel").value[j], quote).None?
  {
    if GetArray(doc, "sortModel").Some? {
      var pieces := SortPieces(GetArray(doc, "sortModel").value, quote);
      if pieces != [] {
        assert pieces[0] != [];
      }
    }
  }

  // ---------------------------------------------------------------------------
  // Row count, cancel, filter dispatch
  // ---------------------------------------------------------------------------

  /** The row-count wrapper around a query. */
  function CountQuery(sql: seq<char>): seq<char> {
    "SELECT COUNT_BIG(*) AS total_rows FROM (" + sql + ") AS subquery WITH(NOLOCK)"
  }

  /** The answer of `handleGetRowCount` once the count query ran: its first
      cell, verbatim, or an error when there is none. */
  function RowCountResponse(result: ResultSet): (response: seq<char>)
    ensures (result.rows == [] || result.rows[0].values == []) <==> response == ErrorResponse("Failed to get row count")
  {
    if result.rows == [] || result.rows[0].values == [] then ErrorResponse("Failed to get row count")
    else
      var r := SuccessResponse("{\"rowCount\":" + result.rows[0].values[0] + "}");
      EnvelopesDiffer("{\"rowCount\":" + result.rows[0].values[0] + "}", "Failed to get row count");
      r
  }

  datatype FilterKind = FilterEquals | FilterContains | FilterRange

  /** The filter a request names, or the error for any other name. */
  function FilterKindOf(filterType: seq<char>): (r: Result<FilterKind>)
    ensures r.Ok? <==> filterType in {"equals", "contains", "range"}
    ensures r.Err? ==> r.error == "Unknown filter type: " + filterType
  {
    if filterType == "equals" then Ok(FilterEquals)
    else if filterType == "contains" then Ok(FilterContains)
    else if filterType == "range" then Ok(FilterRange)
    else Err("Unknown filter type: " + filterType)
  }

  const MissingFilterFields: seq<char> :=
    "Missing required fields: connectionId, sql, columnIndex, filterType, or filterValue"

  /** `v[key].get_uint64()`: integers outside the unsigned 64-bit range are
      an error. */
  function GetUint64(v: Json, key: seq<char>): (r: Option<nat>)
    ensures r.Some? ==> r.value < 0x1_0000_0000_0000_0000
  {
    match Get(v, key)
    case Some(JInt(i)) => if 0 <= i < 0x1_0000_0000_0000_0000 then Some(i) else None
    case _ => None
  }

  /** What the SIMD filter is asked to do: the filter, the query's result,
      the column, the value and, for a range, its upper end (empty when the
      request has none). */
  datatype FilterCall = FilterCall(kind: FilterKind, result: ResultSet, column: nat, value: seq<char>, maxValue: seq<char>)

  /** The checks of `handleFilterResultSet`, in order: the fields, the
      connection, the query itself (which runs before the filter name is
      looked at), then the filter name. */
  function FilterRequest(request: Result<Json>, connections: set<seq<char>>, run: seq<char> -> Result<ResultSet>):
    (r: Result<FilterCall>)
    ensures r.Ok? ==> GetString(Fields(request), "connectionId").Some?
                      && GetString(Fields(request), "connectionId").value in connections
                      && GetString(Fields(request), "sql").Some? && run(GetString(Fields(request), "sql").value) == Ok(r.value.result)
                      && GetString(Fields(request), "filterType").Some?
                      && FilterKindOf(GetString(Fields(request), "filterType").value) == Ok(r.value.kind)
                      && GetString(Fields(request), "filterValue") == Some(r.value.value)
    ensures GetString(Fields(request), "connectionId").Some? && GetString(Fields(request), "sql").Some?
            && GetUint64(Fields(request), "columnIndex").Some? && GetString(Fields(request), "filterType").Some?
            && GetString(Fields(request), "filterValue").Some? && GetString(Fields(request), "connectionId").value in connections
            && run(GetString(Fields(request), "sql").value).Err?
            ==> r == Err(run(GetString(Fields(request), "sql").value).error)
  {
    var doc := Fields(request);
    var id := GetString(doc, "connectionId");
    var sql := GetString(doc, "sql");
    var column := GetUint64(doc, "columnIndex");
    var filterType := GetString(doc, "filterType");
    var value := GetString(doc, "filterValue");
    if id.None? || sql.None? || column.None? || filterType.None? || value.None? then Err(MissingFilterFields)
    else if id.value !in connections then Err(NotFound(id.value))
    else
      match run(sql.value)
      case Err(e) => Err(e)
      case Ok(result) =>
        match FilterKindOf(filterType.value)
        case Err(e) => Err(e)
        case Ok(kind) =>
          var maxValue := if kind == FilterRange then StringOr(doc, "filterValueMax", []) else [];
          Ok(FilterCall(kind, result, column.value, value.value, maxValue))
  }

  /** The rows the filter matched, in the order of its answer. */
  function Picked(result: ResultSet, matches: seq<nat>): (rows: seq<ResultRow>)
    requires forall k :: 0 <= k < |matches| ==> matches[k] < |result.rows|
    ensures |rows| == |matches| && forall k :: 0 <= k < |rows| ==> rows[k] == result.rows[matches[k]]
  {
    seq(|matches|, k requires 0 <= k < |matches| => result.rows[matches[k]])
  }

  /** The answer to a filter: the columns, the matched rows and the counts. */
  function FilterResponse(result: ResultSet, matches: seq<nat>, simdAvailable: bool): seq<char>
    requires forall k :: 0 <= k < |matches| ==> matches[k] < |result.rows|
  {
    "{" + ColumnsField(result.columns) + RowsField(Join(Map(Picked(result, matches), RowText), ","))
    + ",\"totalRows\":" + NatToString(|result.rows|) + ",\"filteredRows\":" + NatToString(|matches|)
    + ",\"simdAvailable\":" + (if simdAvailable then "true" else "false") + "}"
  }

  /** The row loop of the filter answer. */
  method WriteMatchedRows(result: ResultSet, matches: seq<nat>) returns (rowTexts: seq<char>)
    requires forall k :: 0 <= k < |matches| ==> matches[k] < |result.rows|
    ensures rowTexts == Join(Map(Picked(result, matches), RowText), ",")
  {
    var picked := Picked(result, matches);
    rowTexts := "";
    for i := 0 to |matches|
      invariant rowTexts == Join(Map(picked[..i], RowText), ",")
    {
      var sep := if i > 0 then "," else "";
      var row := AppendRow(sep, result.rows[matches[i]]);
      JoinMapStep(picked, i, RowText);
      rowTexts := rowTexts + row;
    }
    assert picked[..|matches|] == picked;
  }

  /** The paginated execution: bounds and sort clauses read from the
      request, then the connection checked and the page query run. */
  method ExecutePaginated(request: Result<Json>, connections: set<seq<char>>, quote: seq<char> -> seq<char>,
                          run: seq<char> -> Result<ResultSet>, timeText: seq<char>) returns (response: seq<char>)
    ensures response == PaginatedResponse(request, connections, quote, run, timeText)
  {
    var fields := SqlRequest(request);
    if fields.Err? {
      return ErrorResponse(fields.error);
    }
    var (id, sql) := fields.value;
    var (start, end) := PageBounds(Fields(request));
    var orderBy := [];
    var sortModel := GetArray(Fields(request), "sortModel");
    if sortModel.Some? {
      var clauses := WriteSortClauses(sortModel.value, quote);
      if clauses != [] {
        orderBy := " ORDER BY " + clauses;
      }
    }
    if id !in connections {
      return ErrorResponse(NotFound(id));
    }
    var executed := run(PageQuery(sql, orderBy, start, end));
    if executed.Err? {
      return ErrorResponse(executed.error);
    }
    response := SuccessResponse(SerializeResult(executed.value, false, timeText));
  }

  class QueryProvider {
    var cache: map<seq<char>, ResultSet>
    /** The texts recorded in the query history, oldest first. */
    var history: seq<seq<char>>

    constructor()
      ensures cache == map[] && history == []
    {
      cache := map[];
      history := [];
    }

    /** `handleExecuteQuery` */
    method HandleExecuteQuery(request: Result<Json>, connections: set<seq<char>>, run: seq<char> -> Result<ResultSet>,
                              timeText: seq<char>) returns (response: seq<char>)
      modifies this
      ensures var x := ExecuteQuery(request, connections, old(cache), run, timeText);
              response == x.response
              && cache == (if x.store.Some? then old(cache)[x.store.value.0 := x.store.value.1] else old(cache))
              && history == old(history) + (if x.logged then [SqlRequest(request).value.1] else [])
    {
      var fields := SqlRequest(request);
      if fields.Err? {
        return ErrorResponse(fields.error);
      }
      var (id, sql) := fields.value;
      if id !in connections {
        return ErrorResponse(NotFound(id));
      }
      var stmts := SplitStatements(sql);
      if |stmts| > 1 {
        response := ExecuteBatch(stmts, run, timeText);
        return;
      }
      if IsUseStatement(sql) {
        response := SwitchDatabase(sql, run, timeText);
        return;
      }
      response := ExecuteSingle(Fields(request), id, sql, run, timeText);
    }

    /** The cache check, the execution and the history entry of a single
        statement. */
    method ExecuteSingle(doc: Json, id: seq<char>, sql: seq<char>, run: seq<char> -> Result<ResultSet>, timeText: seq<char>)
      returns (response: seq<char>)
      modifies this
      ensures var x := CachedExecution(doc, id, sql, old(cache), run, timeText);
              response == x.response
              && cache == (if x.store.Some? then old(cache)[x.store.value.0 := x.store.value.1] else old(cache))
              && history == old(history) + (if x.logged then [sql] else [])
    {
      ghost var x := CachedExecution(doc, id, sql, cache, run, timeText);
      var useCache := BoolOr(doc, "useCache", true);
      var key := CacheKey(id, sql);
      var selectQuery := IsReadOnlyQuery(sql);
      assert UsesCache(doc, sql) == (useCache && selectQuery);
      if useCache && selectQuery && key in cache {
        var json := SerializeResultSet(cache[key], true, timeText);
        assert x == Execution(SuccessResponse(json), None, false);
        return SuccessResponse(json);
      }
      var executed := run(sql);
      if executed.Err? {
        assert x == Execution(ErrorResponse(executed.error), None, false);
        return ErrorResponse(executed.error);
      }
      var json := SerializeResultSet(executed.value, false, timeText);
      assert x.response == SuccessResponse(json) && x.logged;
      if useCache && selectQuery {
        assert x.store == Some((key, executed.value));
        cache := cache[key := executed.value];
      } else {
        assert x.store == None;
      }
      history := history + [sql];
      response := SuccessResponse(json);
    }

    /** `handleExecuteQueryPaginated`: sort columns quoted with
        `quoteBracketIdentifier`. */
    method HandleExecuteQueryPaginated(request: Result<Json>, connections: set<seq<char>>,
                                       run: seq<char> -> Result<ResultSet>, timeText: seq<char>) returns (response: seq<char>)
      ensures response == PaginatedResponse(request, connections, QuoteIdentifier, run, timeText)
    {
      response := ExecutePaginated(request, connections, QuoteIdentifier, run, timeText);
    }

    /** `handleGetRowCount` */
    method HandleGetRowCount(request: Result<Json>, connections: set<seq<char>>, run: seq<char> -> Result<ResultSet>)
      returns (response: seq<char>)
      ensures SqlRequest(request).Err? ==> response == ErrorResponse(SqlRequest(request).error)
      ensures SqlRequest(request).Ok? && SqlRequest(request).value.0 !in connections ==>
                response == ErrorResponse(NotFound(SqlRequest(request).value.0))
      ensures SqlRequest(request).Ok? && SqlRequest(request).value.0 in connections ==>
                response == match run(CountQuery(SqlRequest(request).value.1))
                            case Err(e) => ErrorResponse(e)
                            case Ok(result) => RowCountResponse(result)
    {
      var fields := SqlRequest(request);
      if fields.Err? {
        return ErrorResponse(fields.error);
      }
      var (id, sql) := fields.value;
      if id !in connections {
        return ErrorResponse(NotFound(id));
      }
      var executed := run(CountQuery(sql));
      if executed.Err? {
        return ErrorResponse(executed.error);
      }
      response := RowCountResponse(executed.value);
    }

    /** `handleCancelQuery`: a well-formed request always succeeds; the
        driver is asked to cancel only when the connection is known. */
    method HandleCancelQuery(request: Result<Json>, connections: set<seq<char>>) returns (response: seq<char>, cancelled: bool)
      ensures ExtractConnectionId(request).Err? ==> response == ErrorResponse(ExtractConnectionId(request).error) && !cancelled
      ensures ExtractConnectionId(request).Ok? ==>
                response == SuccessResponse("{}") && (cancelled <==> ExtractConnectionId(request).value in connections)
    {
      var id := ExtractConnectionId(request);
      if id.Err? {
        return ErrorResponse(id.error), false;
      }
      cancelled := id.value in connections;
      response := SuccessResponse("{}");
    }

    /** `handleFilterResultSet`: `simd` stands for the SIMD filter, which
        answers with indexes of rows of the result it is given. */
    method HandleFilterResultSet(request: Result<Json>, connections: set<seq<char>>, run: seq<char> -> Result<ResultSet>,
                                 simd: FilterCall -> seq<nat>, simdAvailable: bool) returns (response: seq<char>)
      requires forall c: FilterCall, k :: 0 <= k < |simd(c)| ==> simd(c)[k] < |c.result.rows|
      ensures FilterRequest(request, connections, run).Err? ==> response == ErrorResponse(FilterRequest(request, connections, run).error)
      ensures FilterRequest(request, connections, run).Ok? ==>
                var c := FilterRequest(request, connections, run).value;
                response == SuccessResponse(FilterResponse(c.result, simd(c), simdAvailable))
    {
      var call := FilterRequest(request, connections, run);
      if call.Err? {
        return ErrorResponse(call.error);
      }
      var c := call.value;
      var matches := simd(c);
      var columns := AppendColumns("{", c.result.columns);
      var rowTexts := WriteMatchedRows(c.result, matches);
      var json := columns + RowsField(rowTexts)
        + ",\"totalRows\":" + NatToString(|c.result.rows|) + ",\"filteredRows\":" + NatToString(|matches|)
        + ",\"simdAvailable\":" + (if simdAvailable then "true" else "false") + "}";
      response := SuccessResponse(json);
    }
  }
}
