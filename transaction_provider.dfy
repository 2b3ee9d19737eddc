/** The transaction handlers (`TransactionProvider`): one transaction
    manager per connection id, created on the first `begin` and reused after.
    The manager itself is not part of this model: it is represented by the
    driver it was given and the calls made on it, and whether a call
    throws is given by the caller. */
module TransactionProviders {
  import opened Wrappers
  import opened Requests
  import opened SqlServerDrivers
  import opened JsonUtils

  datatype TxCall = Begin | Commit | Rollback

  datatype Manager = Manager(driver: SqlServerDriver, calls: seq<TxCall>)

  /** The id a request names, or the error a handler answers with. */
  function RequestedId(request: Result<Json>): (r: Result<seq<char>>)
    ensures r.Ok? <==> GetString(Fields(request), "connectionId").Some?
    ensures r.Ok? ==> r.value == GetString(Fields(request), "connectionId").value
    ensures r.Err? ==> r.error == "Missing required field: connectionId"
  {
    match GetString(Fields(request), "connectionId")
    case Some(id) => Ok(id)
    case None => Err("Missing required field: connectionId")
  }

  class TransactionProvider {
    var managers: map<seq<char>, Manager>

    constructor()
      ensures managers == map[]
    {
      managers := map[];
    }

    /** `cleanupConnection`: the id's manager is dropped; a malformed
        request or an unknown id changes nothing. */
    method CleanupConnection(request: Result<Json>)
      modifies this
      ensures RequestedId(request).Ok? ==> managers == old(managers) - {RequestedId(request).value}
      ensures RequestedId(request).Err? ==> managers == old(managers)
    {
      var id := RequestedId(request);
      if id.Ok? {
        managers := managers - {id.value};
      }
    }

    /** `handleBeginTransaction`. `connections` are the query drivers the
        connection provider knows. An unknown connection is an error and
        changes nothing; otherwise the id's manager, created with the
        connection's driver if there was none, is asked to begin. */
    method HandleBegin(request: Result<Json>, connections: map<seq<char>, SqlServerDriver>, failure: Option<seq<char>>)
      returns (response: seq<char>)
      modifies this
      ensures RequestedId(request).Err? ==> response == ErrorResponse(RequestedId(request).error) && managers == old(managers)
      ensures RequestedId(request).Ok? && RequestedId(request).value !in connections ==>
        (response == ErrorResponse("Connection not found: " + RequestedId(request).value) && managers == old(managers))
      ensures RequestedId(request).Ok? && RequestedId(request).value in connections ==> (
        var id := RequestedId(request).value;
        var before := if id in old(managers) then old(managers)[id] else Manager(connections[id], []);
        managers == old(managers)[id := before.(calls := before.calls + [Begin])]
        && |managers| <= |old(managers)| + 1
        && response == (if failure.Some? then ErrorResponse(failure.value) else SuccessResponse("{}")))
    {
      var id := RequestedId(request);
      if id.Err? {
        return ErrorResponse(id.error);
      }
      if id.value !in connections {
        return ErrorResponse("Connection not found: " + id.value);
      }
      if id.value !in managers {
        managers := managers[id.value := Manager(connections[id.value], [])];
      }
      var m := managers[id.value];
      managers := managers[id.value := m.(calls := m.calls + [Begin])];
      assert managers.Keys == old(managers).Keys + {id.value};
      response := if failure.Some? then ErrorResponse(failure.value) else SuccessResponse("{}");
    }

    /** `handleCommitTransaction` and `handleRollbackTransaction`: an id
        without a manager is an error and changes nothing; otherwise the
        call is made on the id's manager. */
    method HandleFinish(request: Result<Json>, call: TxCall, failure: Option<seq<char>>) returns (response: seq<char>)
      requires call != Begin
      modifies this
      ensures RequestedId(request).Err? ==> response == ErrorResponse(RequestedId(request).error) && managers == old(managers)
      ensures RequestedId(request).Ok? && RequestedId(request).value !in old(managers) ==>
        (response == ErrorResponse("No transaction manager for connection: " + RequestedId(request).value)
         && managers == old(managers))
      ensures RequestedId(request).Ok? && RequestedId(request).value in old(managers) ==> (
        var id := RequestedId(request).value;
        managers == old(managers)[id := old(managers)[id].(calls := old(managers)[id].calls + [call])]
        && response == (if failure.Some? then ErrorResponse(failure.value) else SuccessResponse("{}")))
    {
      var id := RequestedId(request);
      if id.Err? {
        return ErrorResponse(id.error);
      }
      if id.value !in managers {
        return ErrorResponse("No transaction manager for connection: " + id.value);
      }
      var m := managers[id.value];
      managers := managers[id.value := m.(calls := m.calls + [call])];
      response := if failure.Some? then ErrorResponse(failure.value) else SuccessResponse("{}");
    }
  }
}
