/** The table of background queries (`AsyncQueryExecutor`): queries are
    submitted under generated ids, run in the background, polled, cancelled,
    removed once finished, and evicted when stale. The background work is an
    explicit action (`Complete`, then `FutureReady` when its value can be
    taken); threads, locks and futures are not modelled. Times are integers
    given by the caller. */
module AsyncExecutor {
  import opened Wrappers
  import opened Strings
  import opened ResultSets
  import opened SqlParser

  datatype QueryStatus = Pending | Running | Completed | Failed | Cancelled

  predicate Active(s: QueryStatus) {
    s == Pending || s == Running
  }

  datatype StatementResult = StatementResult(statement: seq<char>, result: ResultSet)

  /** What the background work produces: one result, or one per statement. */
  datatype QueryOutcome = Single(result: ResultSet) | Multiple(results: seq<StatementResult>)

  /** A task: its query, whether a driver was given, its status and times,
      and the value of its future — `value` once the work has finished,
      `ready` once it can be taken, `futureValid` until it is taken — and the
      value taken, kept in `cachedResult`. */
  datatype QueryTask = QueryTask(
    sql: seq<char>,
    hasDriver: bool,
    status: QueryStatus,
    multipleResults: bool,
    startTime: int,
    endTime: int,
    errorMessage: seq<char>,
    value: Option<QueryOutcome>,
    ready: bool,
    futureValid: bool,
    cachedResult: Option<QueryOutcome>)

  /** What `getQueryResult` reports. */
  datatype AsyncQueryResult = AsyncQueryResult(
    queryId: seq<char>,
    status: QueryStatus,
    multipleResults: bool,
    startTime: int,
    endTime: int,
    errorMessage: seq<char>,
    result: Option<ResultSet>,
    results: seq<StatementResult>)

  function QueryId(n: nat): seq<char> {
    "query_" + NatToString(n)
  }

  // ---------------------------------------------------------------------------
  // The background work
  // ---------------------------------------------------------------------------

  /** One statement of a batch: a `USE` is executed and reported as the
      synthetic message; any other statement reports what the driver
      returns. `execute` gives the driver's result or the message of the
      exception it throws. */
  function StatementOutcome(stmt: seq<char>, execute: seq<char> -> Result<ResultSet>): (r: Result<ResultSet>)
    ensures r.Err? <==> execute(stmt).Err?
    ensures IsUseStatement(stmt) && r.Ok? ==> r.value == UseResult(ExtractDatabaseName(stmt))
    ensures !IsUseStatement(stmt) ==> r == execute(stmt)
  {
    match execute(stmt)
    case Err(e) => Err(e)
    case Ok(rs) => if IsUseStatement(stmt) then Ok(UseResult(ExtractDatabaseName(stmt))) else Ok(rs)
  }

  /** The statements run in order, stopping at the first that throws. */
  function RunAll(stmts: seq<seq<char>>, execute: seq<char> -> Result<ResultSet>): (r: Result<seq<StatementResult>>)
    ensures r.Ok? <==> forall k :: 0 <= k < |stmts| ==> execute(stmts[k]).Ok?
    ensures r.Ok? ==> |r.value| == |stmts|
    ensures r.Ok? ==> forall k :: 0 <= k < |stmts| ==>
      r.value[k].statement == stmts[k] && Ok(r.value[k].result) == StatementOutcome(stmts[k], execute)
    decreases |stmts|
  {
    if stmts == [] then Ok([])
    else
      var init := stmts[..|stmts| - 1];
      var last := stmts[|stmts| - 1];
      assert forall k :: 0 <= k < |init| ==> init[k] == stmts[k];
      assert stmts == init + [last];
      match RunAll(init, execute)
      case Err(e) => Err(e)
      case Ok(rs) =>
        match StatementOutcome(last, execute)
        case Err(e) => Err(e)
        case Ok(r) => Ok(rs + [StatementResult(last, r)])
  }

  /** The error of a batch that fails is the error of its first failing
      statement. */
  lemma {:induction false} RunAllFirstError(stmts: seq<seq<char>>, execute: seq<char> -> Result<ResultSet>, k: nat)
    requires k < |stmts| && execute(stmts[k]).Err?
    requires forall j :: 0 <= j < k ==> execute(stmts[j]).Ok?
    ensures RunAll(stmts, execute) == Err(execute(stmts[k]).error)
    decreases |stmts|
  {
    var init := stmts[..|stmts| - 1];
    if k < |stmts| - 1 {
      RunAllFirstError(init, execute, k);
    } else {
      assert RunAll(init, execute).Ok? by {
        forall j | 0 <= j < |init| ensures execute(init[j]).Ok? {
          assert init[j] == stmts[j];
        }
      }
    }
  }

  /** One more statement that succeeds extends the results. */
  lemma RunAllSnoc(stmts: seq<seq<char>>, i: nat, execute: seq<char> -> Result<ResultSet>, all: seq<StatementResult>, current: ResultSet)
    requires i < |stmts| && RunAll(stmts[..i], execute) == Ok(all)
    requires StatementOutcome(stmts[i], execute) == Ok(current)
    ensures RunAll(stmts[..i + 1], execute) == Ok(all + [StatementResult(stmts[i], current)])
  {
    assert stmts[..i + 1][..i] == stmts[..i];
  }

  /** A statement that throws ends the batch with its error. */
  lemma RunAllStop(stmts: seq<seq<char>>, i: nat, execute: seq<char> -> Result<ResultSet>, all: seq<StatementResult>)
    requires i < |stmts| && RunAll(stmts[..i], execute) == Ok(all)
    requires execute(stmts[i]).Err?
    ensures RunAll(stmts, execute) == Err(execute(stmts[i]).error)
  {
    forall j | 0 <= j < i ensures execute(stmts[j]).Ok? {
      assert stmts[..i][j] == stmts[j];
    }
    RunAllFirstError(stmts, execute, i);
  }

  /** The loop of the multi-statement task. */
  method RunStatements(stmts: seq<seq<char>>, execute: seq<char> -> Result<ResultSet>) returns (r: Result<seq<StatementResult>>)
    ensures r == RunAll(stmts, execute)
  {
    var all: seq<StatementResult> := [];
    var i := 0;
    while i < |stmts|
      invariant i <= |stmts|
      invariant RunAll(stmts[..i], execute) == Ok(all)
    {
      var current: ResultSet;
      var stmt := stmts[i];
      if IsUseStatement(stmt) {
        var discarded := execute(stmt);
        if discarded.Err? {
          RunAllStop(stmts, i, execute, all);
          return Err(discarded.error);
        }
        current := UseResult(ExtractDatabaseName(stmt));
      } else {
        var executed := execute(stmt);
        if executed.Err? {
          RunAllStop(stmts, i, execute, all);
          return Err(executed.error);
        }
        current := executed.value;
      }
      RunAllSnoc(stmts, i, execute, all, current);
      all := all + [StatementResult(stmt, current)];
      i := i + 1;
    }
    assert stmts[..i] == stmts;
    return Ok(all);
  }

  /** What the background work of a query produces: the batch path when the
      text splits into more than one statement, the text itself otherwise
      (with no `USE` handling). */
  function Background(sql: seq<char>, execute: seq<char> -> Result<ResultSet>): (r: (QueryOutcome, Result<()>))
    ensures |Statements(sql)| > 1 ==> r.0.Multiple?
    ensures |Statements(sql)| <= 1 ==> r.0.Single? && (r.1.Ok? <==> execute(sql).Ok?)
  {
    var stmts := Statements(sql);
    if |stmts| > 1 then
      match RunAll(stmts, execute)
      case Ok(all) => (Multiple(all), Ok(()))
      case Err(e) => (Multiple([]), Err(e))
    else
      match execute(sql)
      case Ok(rs) => (Single(rs), Ok(()))
      case Err(e) => (Single(EmptyResult), Err(e))
  }

  /** The lambda the task runs: the batch loop or the single execution. */
  method RunBackground(sql: seq<char>, execute: seq<char> -> Result<ResultSet>) returns (outcome: QueryOutcome, status: Result<()>)
    ensures (outcome, status) == Background(sql, execute)
  {
    var statements := SplitStatements(sql);
    if |statements| > 1 {
      var all := RunStatements(statements, execute);
      if all.Ok? {
        outcome, status := Multiple(all.value), Ok(());
      } else {
        outcome, status := Multiple([]), Err(all.error);
      }
    } else {
      var single := execute(sql);
      if single.Ok? {
        outcome, status := Single(single.value), Ok(());
      } else {
        outcome, status := Single(EmptyResult), Err(single.error);
      }
    }
  }

  // ---------------------------------------------------------------------------
  // The task table
  // ---------------------------------------------------------------------------

  /** No id from `counter` on is in use. */
  ghost predicate FreshFrom(queries: map<seq<char>, QueryTask>, counter: nat) {
    forall n: nat :: n >= counter ==> QueryId(n) !in queries
  }

  /** Handing out `query_<counter>` and moving the counter on keeps the ids
      still to come unused. */
  lemma FreshAfterInsert(queries: map<seq<char>, QueryTask>, counter: nat, task: QueryTask)
    requires FreshFrom(queries, counter)
    ensures QueryId(counter) !in queries
    ensures FreshFrom(queries[QueryId(counter) := task], counter + 1)
  {
    forall n: nat | n >= counter + 1 ensures QueryId(n) !in queries[QueryId(counter) := task] {
      QueryIdsDistinct(n, counter);
    }
  }

  predicate Stale(t: QueryTask, now: int, maxAge: int) {
    !Active(t.status) && now - t.endTime > maxAge
  }

  class AsyncQueryExecutor {
    var queries: map<seq<char>, QueryTask>
    var counter: nat
    var lastEvictTime: int
    /** `EVICT_INTERVAL`, whose value is not part of this model. */
    const evictInterval: int

    /** No id the counter has yet to hand out is in use. */
    ghost predicate Valid()
      reads this
    {
      FreshFrom(queries, counter)
    }

    constructor(firstId: nat, evictInterval: int, now: int)
      ensures Valid() && queries == map[] && counter == firstId && this.evictInterval == evictInterval
      ensures lastEvictTime == now
    {
      queries := map[];
      counter := firstId;
      lastEvictTime := now;
      this.evictInterval := evictInterval;
    }

    /** `submitQuery`: a new `Running` task under `query_<counter>`, an id
        that has not been used before. */
    method SubmitQuery(hasDriver: bool, sql: seq<char>, now: int) returns (queryId: seq<char>)
      requires Valid()
      modifies this
      ensures Valid()
      ensures queryId == QueryId(old(counter)) && queryId !in old(queries)
      ensures counter == old(counter) + 1 && lastEvictTime == old(lastEvictTime)
      ensures queries == old(queries)[queryId := QueryTask(sql, hasDriver, Running, |Statements(sql)| > 1, now, 0, [],
                                                          None, false, true, None)]
    {
      queryId := QueryId(counter);
      var statements := SplitStatements(sql);
      var task := QueryTask(sql, hasDriver, Running, |statements| > 1, now, 0, [], None, false, true, None);
      counter := counter + 1;
      FreshAfterInsert(queries, old(counter), task);
      queries := queries[queryId := task];
    }

    /** The background work of a task finishes: its status becomes
        `Completed` or `Failed` whatever it was, a `Cancelled` included, and
        its value is produced (not yet ready to be taken). */
    method Complete(queryId: seq<char>, execute: seq<char> -> Result<ResultSet>, now: int)
      requires queryId in queries && queries[queryId].value.None?
      modifies this
      ensures var t := old(queries)[queryId];
        var (outcome, status) := Background(t.sql, execute);
        queries == old(queries)[queryId := t.(status := if status.Ok? then Completed else Failed, endTime := now,
                                               errorMessage := if status.Err? then status.error else t.errorMessage,
                                               value := Some(outcome))]
      ensures counter == old(counter) && lastEvictTime == old(lastEvictTime)
    {
      var t := queries[queryId];
      var outcome, status := RunBackground(t.sql, execute);
      var finished := t.(status := if status.Ok? then Completed else Failed, endTime := now,
                         errorMessage := if status.Err? then status.error else t.errorMessage,
                         value := Some(outcome));
      queries := queries[queryId := finished];
    }

    /** The future of a finished task becomes ready. */
    method FutureReady(queryId: seq<char>)
      requires queryId in queries && queries[queryId].value.Some?
      modifies this
      ensures queries == old(queries)[queryId := old(queries)[queryId].(ready := true)]
      ensures counter == old(counter) && lastEvictTime == old(lastEvictTime)
    {
      queries := queries[queryId := queries[queryId].(ready := true)];
    }

    /** `getQueryResult`. */
    method GetQueryResult(queryId: seq<char>) returns (result: AsyncQueryResult)
      modifies this
      ensures queryId !in old(queries) ==>
        result == AsyncQueryResult(queryId, Failed, false, 0, 0, "Query not found", None, []) && queries == old(queries)
      ensures queryId in old(queries) ==> var t := old(queries)[queryId];
        && result.queryId == queryId && result.errorMessage == t.errorMessage
        && (result.status == Running <==>
              t.status == Running || ((t.status == Completed || t.status == Failed) && t.cachedResult.None? && t.futureValid && !t.ready))
        && (result.status != Running ==> result.status == t.status)
        && result.multipleResults == t.multipleResults && result.startTime == t.startTime && result.endTime == t.endTime
      ensures queryId in old(queries) ==> var t := old(queries)[queryId];
        (if (t.status == Completed || t.status == Failed) && t.cachedResult.None? && t.futureValid && t.ready
         then queries == old(queries)[queryId := t.(cachedResult := t.value, futureValid := false)]
         else queries == old(queries))
      ensures queryId in queries ==> var t := queries[queryId];
        (t.status == Completed || t.status == Failed) && result.status != Running && t.cachedResult.Some? ==>
          if t.multipleResults then result.results == (if t.cachedResult.value.Multiple? then t.cachedResult.value.results else [])
          else result.result == (if t.cachedResult.value.Single? then Some(t.cachedResult.value.result) else None)
      ensures queryId in queries ==> var t := queries[queryId];
        var delivered := (t.status == Completed || t.status == Failed) && result.status != Running && t.cachedResult.Some?;
        (!delivered ==> result.result.None? && result.results == [])
        && (delivered && t.multipleResults ==> result.result.None?)
        && (delivered && !t.multipleResults ==> result.results == [])
      ensures counter == old(counter) && lastEvictTime == old(lastEvictTime)
    {
      if queryId !in queries {
        return AsyncQueryResult(queryId, Failed, false, 0, 0, "Query not found", None, []);
      }
      var t := queries[queryId];
      result := AsyncQueryResult(queryId, t.status, t.multipleResults, t.startTime, t.endTime, t.errorMessage, None, []);
      if t.status == Completed || t.status == Failed {
        if t.cachedResult.None? && t.futureValid {
          if t.ready {
            t := t.(cachedResult := t.value, futureValid := false);
            queries := queries[queryId := t];
          } else {
            result := result.(status := Running);
            return;
          }
        }
        if t.cachedResult.Some? {
          if t.multipleResults {
            result := result.(results := if t.cachedResult.value.Multiple? then t.cachedResult.value.results else []);
          } else {
            result := result.(result := if t.cachedResult.value.Single? then Some(t.cachedResult.value.result) else None);
          }
        }
      }
    }

    /** `cancelQuery`: only a running task with a driver is cancelled. */
    method CancelQuery(queryId: seq<char>, now: int) returns (cancelled: bool)
      modifies this
      ensures cancelled <==> queryId in old(queries) && old(queries)[queryId].status == Running && old(queries)[queryId].hasDriver
      ensures cancelled ==> queries == old(queries)[queryId := old(queries)[queryId].(status := Cancelled, endTime := now)]
      ensures !cancelled ==> queries == old(queries)
      ensures counter == old(counter) && lastEvictTime == old(lastEvictTime)
    {
      if queryId !in queries {
        return false;
      }
      var t := queries[queryId];
      if t.status == Running && t.hasDriver {
        queries := queries[queryId := t.(status := Cancelled, endTime := now)];
        return true;
      }
      return false;
    }

    /** `isQueryRunning` */
    predicate IsQueryRunning(queryId: seq<char>)
      reads this
    {
      queryId in queries && queries[queryId].status == Running
    }

    /** `removeQuery`: a finished task is erased; an unknown id or an active
        task is refused. */
    method RemoveQuery(queryId: seq<char>) returns (removed: bool)
      modifies this
      ensures removed <==> queryId in old(queries) && !Active(old(queries)[queryId].status)
      ensures queries == if removed then old(queries) - {queryId} else old(queries)
      ensures counter == old(counter) && lastEvictTime == old(lastEvictTime)
    {
      if queryId !in queries {
        return false;
      }
      if Active(queries[queryId].status) {
        return false;
      }
      queries := queries - {queryId};
      return true;
    }

    /** `getActiveQueryIds`: each active id once, in no particular order. */
    method GetActiveQueryIds() returns (ids: seq<seq<char>>)
      ensures forall id :: id in ids <==> id in queries && Active(queries[id].status)
      ensures forall i, j :: 0 <= i < j < |ids| ==> ids[i] != ids[j]
    {
      ids := [];
      var remaining := queries.Keys;
      while remaining != {}
        invariant remaining <= queries.Keys
        invariant forall id :: id in ids <==> id in queries && id !in remaining && Active(queries[id].status)
        invariant forall i, j :: 0 <= i < j < |ids| ==> ids[i] != ids[j]
        decreases remaining
      {
        var id :| id in remaining;
        if Active(queries[id].status) {
          ids := ids + [id];
        }
        remaining := remaining - {id};
      }
    }

    /** `evictStaleQueries`: at most one scan per interval; a scan erases
        exactly the finished tasks that ended more than `maxAge` ago and
        reports how many it erased. */
    method EvictStaleQueries(maxAge: int, now: int) returns (evicted: nat)
      requires Valid()
      modifies this
      ensures Valid() && counter == old(counter)
      ensures old(queries) == map[] || now - old(lastEvictTime) < evictInterval ==>
        evicted == 0 && queries == old(queries) && lastEvictTime == old(lastEvictTime)
      ensures old(queries) != map[] && now - old(lastEvictTime) >= evictInterval ==>
        lastEvictTime == now
        && queries == (map id | id in old(queries) && !Stale(old(queries)[id], now, maxAge) :: old(queries)[id])
        && evicted == |old(queries).Keys| - |queries.Keys|
    {
      if queries == map[] {
        return 0;
      }
      if now - lastEvictTime < evictInterval {
        return 0;
      }
      lastEvictTime := now;
      var before := queries;
      queries := map id | id in before && !Stale(before[id], now, maxAge) :: before[id];
      SubsetCard(queries.Keys, before.Keys);
      evicted := |before.Keys| - |queries.Keys|;
    }
  }

  lemma {:induction false} SubsetCard<T>(a: set<T>, b: set<T>)
    requires a <= b
    ensures |a| <= |b|
    decreases b
  {
    if a != {} {
      var x :| x in a;
      SubsetCard(a - {x}, b - {x});
    }
  }

  /** The text after `query_` gives the counter value back. */
  lemma QueryIdsDistinct(n: nat, m: nat)
    ensures QueryId(n) == QueryId(m) <==> n == m
  {
    if n != m {
      PrefixedNumberInjective("query_", n, m);
    }
  }

  /** Eviction never touches an active task, nor one that ended recently. */
  lemma EvictionKeeps(queries: map<seq<char>, QueryTask>, id: seq<char>, now: int, maxAge: int)
    requires id in queries && (Active(queries[id].status) || now - queries[id].endTime <= maxAge)
    ensures id in (map k | k in queries && !Stale(queries[k], now, maxAge) :: queries[k])
  {
  }
}
