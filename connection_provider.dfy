/** The connect, disconnect and test-connection handlers (`ConnectionProvider`).
    A connection is a pair of drivers, one for queries and one for metadata:
    the registry holds the query driver under the connection's id, and the
    provider keeps the metadata driver beside it under the same id. The SSH
    tunnel, the drivers' ODBC connects and the tunnel's local port are not
    part of this model and are given as outcomes. */
module ConnectionProviders {
  import opened Wrappers
  import opened Strings
  import opened Requests
  import opened ConnectionUtils
  import opened SqlServerDrivers
  import opened ConnectionRegistries
  import opened JsonUtils

  const Loopback: seq<char> := "127.0.0.1"

  /** What `prepareConnection` hands to the drivers: the connection string,
      and the tunnel it opened, if any. */
  datatype Prepared = Prepared(odbcString: seq<char>, tunnel: Option<SshTunnelConfig>)

  /** `prepareConnection`: with SSH enabled, the tunnel is opened first and
      the drivers are pointed at its local end, `127.0.0.1,<localPort>`;
      without SSH the parameters are used as they are. */
  function PrepareConnection(params: DatabaseConnectionParams, tunnelConnect: SshTunnelConfig -> Option<seq<char>>,
                             localPort: nat, driverPrefix: (seq<char>, seq<char>) -> seq<char>): (r: Result<Prepared>)
    ensures !params.ssh.enabled ==> r == Ok(Prepared(BuildOdbcConnectionString(params, driverPrefix), None))
    ensures params.ssh.enabled ==> (r.Ok? <==> EstablishSshTunnel(params, tunnelConnect).Ok?)
    ensures params.ssh.enabled && r.Err? ==> r.error == EstablishSshTunnel(params, tunnelConnect).error
    ensures params.ssh.enabled && r.Ok? ==>
      r.value.tunnel == Some(BuildSshTunnelConfig(params.ssh, params.server, params.dbType))
      && r.value.odbcString == BuildOdbcConnectionString(params.(server := Loopback + "," + NatToString(localPort)), driverPrefix)
  {
    if !params.ssh.enabled then
      Ok(Prepared(BuildOdbcConnectionString(params, driverPrefix), None))
    else
      match EstablishSshTunnel(params, tunnelConnect)
      case Err(message) => Err(message)
      case Ok(tunnel) =>
        var effective := params.(server := Loopback + "," + NatToString(localPort));
        Ok(Prepared(BuildOdbcConnectionString(effective, driverPrefix), Some(tunnel)))
  }

  /** Through a tunnel, a PostgreSQL or MySQL driver is sent to the
      loopback host and the tunnel's local port, while the tunnel forwards
      to the server the parameters named. */
  lemma TunnelledTarget(params: DatabaseConnectionParams, tunnelConnect: SshTunnelConfig -> Option<seq<char>>,
                        localPort: nat, driverPrefix: (seq<char>, seq<char>) -> seq<char>)
    requires params.ssh.enabled && params.dbType != SQLServer && 1 <= localPort <= 65535
    requires PrepareConnection(params, tunnelConnect, localPort, driverPrefix).Ok?
    ensures var p := PrepareConnection(params, tunnelConnect, localPort, driverPrefix).value;
      var pg := params.dbType == PostgreSQL;
      ReadAttributes(p.odbcString)
      == Some(NetworkAttributes(if pg then PostgresDriver else MySqlDriver, Loopback, NatToString(localPort), params.database,
                                if pg then "Uid" else "User", if pg then "Pwd" else "Password", params.username, params.password))
      && p.tunnel.value.remoteHost <= params.server
  {
    var effective := params.(server := Loopback + "," + NatToString(localPort));
    var p := PrepareConnection(params, tunnelConnect, localPort, driverPrefix).value;
    assert p.odbcString == BuildOdbcConnectionString(effective, driverPrefix);
    assert p.tunnel.value.remoteHost <= params.server;
    LoopbackTarget(localPort, DefaultDbPort(params.dbType));
    var port := NatToString(localPort);
    if params.dbType == PostgreSQL {
      PostgresConnectionAttributes(effective, driverPrefix);
      assert ReadAttributes(p.odbcString) == Some(NetworkAttributes(PostgresDriver, Loopback, port, params.database,
                                                                    "Uid", "Pwd", params.username, params.password));
    } else {
      MySqlConnectionAttributes(effective, driverPrefix);
      assert ReadAttributes(p.odbcString) == Some(NetworkAttributes(MySqlDriver, Loopback, port, params.database,
                                                                    "User", "Password", params.username, params.password));
    }
  }

  /** The loopback address and a port, written as a server, split back
      into themselves. */
  lemma LoopbackTarget(localPort: nat, defaultPort: int)
    requires 1 <= localPort <= 65535
    ensures SplitHostPort(Loopback + "," + NatToString(localPort), defaultPort) == HostPort(Loopback, localPort)
    ensures IntToString(localPort) == NatToString(localPort)
  {
    assert forall k :: 0 <= k < |Loopback| ==> Loopback[k] != ',';
    SplitHostPortJoin(Loopback, localPort, defaultPort);
  }

  /** Why `handleConnect` fails, in the order it checks: the request, the
      tunnel, the query driver's connect, then the metadata driver's. */
  function ConnectError(request: Result<Json>, tunnelConnect: SshTunnelConfig -> Option<seq<char>>, localPort: nat,
                        driverPrefix: (seq<char>, seq<char>) -> seq<char>,
                        queryFailure: Option<seq<char>>, metaFailure: Option<seq<char>>): Option<seq<char>>
  {
    match ExtractConnectionParams(request)
    case Err(message) => Some(message)
    case Ok(params) =>
      match PrepareConnection(params, tunnelConnect, localPort, driverPrefix)
      case Err(message) => Some(message)
      case Ok(_) =>
        if queryFailure.Some? then Some("Connection failed: " + queryFailure.value)
        else if metaFailure.Some? then Some("Metadata connection failed: " + metaFailure.value)
        else None
  }

  /** A connection is made exactly when the request is complete, the tunnel
      (if asked for) opens, and both drivers connect. */
  lemma ConnectSucceeds(request: Result<Json>, tunnelConnect: SshTunnelConfig -> Option<seq<char>>, localPort: nat,
                        driverPrefix: (seq<char>, seq<char>) -> seq<char>,
                        queryFailure: Option<seq<char>>, metaFailure: Option<seq<char>>)
    ensures ConnectError(request, tunnelConnect, localPort, driverPrefix, queryFailure, metaFailure).None?
      <==> (ExtractConnectionParams(request).Ok?
            && (ExtractConnectionParams(request).value.ssh.enabled ==>
                  EstablishSshTunnel(ExtractConnectionParams(request).value, tunnelConnect).Ok?)
            && queryFailure.None? && metaFailure.None?)
  {
  }

  /** The data of a successful connect. */
  function ConnectedData(id: seq<char>): seq<char> {
    "{\"connectionId\":\"" + id + "\"}"
  }

  /** The data of a test connection. */
  function TestData(success: bool, message: seq<char>): seq<char> {
    "{\"success\":" + (if success then "true" else "false") + ",\"message\":\"" + message + "\"}"
  }

  class ConnectionProvider {
    const registry: ConnectionRegistry
    /** The metadata driver of each registered connection. */
    var metadata: map<seq<char>, SqlServerDriver>
    /** `buildDriverConnectionPrefix`, which is not part of this model. */
    const driverPrefix: (seq<char>, seq<char>) -> seq<char>

    ghost predicate Valid()
      reads this, registry
    {
      registry.Valid() && metadata.Keys == registry.connections.Keys
    }

    constructor(driverPrefix: (seq<char>, seq<char>) -> seq<char>)
      ensures Valid() && fresh(registry) && registry.connections == map[] && registry.tunnels == map[]
      ensures metadata == map[] && this.driverPrefix == driverPrefix
    {
      registry := new ConnectionRegistry();
      metadata := map[];
      this.driverPrefix := driverPrefix;
    }

    /** `handleConnect`. On any failure the registry and the metadata
        drivers are left as they were; when only the metadata connect fails,
        the query driver that did connect is disconnected again. On success
        the query driver is registered under a new id, the metadata driver
        kept under the same id, and the tunnel attached after both. */
    method HandleConnect(request: Result<Json>, tunnelConnect: SshTunnelConfig -> Option<seq<char>>, localPort: nat,
                         queryFailure: Option<seq<char>>, metaFailure: Option<seq<char>>)
      returns (response: seq<char>, queryDriver: SqlServerDriver?)
      requires Valid()
      modifies this, registry
      ensures Valid()
      ensures var err := ConnectError(request, tunnelConnect, localPort, driverPrefix, queryFailure, metaFailure);
        err.Some? ==> (response == ErrorResponse(err.value)
          && registry.connections == old(registry.connections) && registry.tunnels == old(registry.tunnels)
          && registry.counter == old(registry.counter) && registry.closings == old(registry.closings)
          && metadata == old(metadata))
      ensures var err := ConnectError(request, tunnelConnect, localPort, driverPrefix, queryFailure, metaFailure);
        err.None? ==> (
          var id := ConnId(old(registry.counter));
          var prepared := PrepareConnection(ExtractConnectionParams(request).value, tunnelConnect, localPort, driverPrefix).value;
          response == SuccessResponse(ConnectedData(id)) && id !in old(registry.connections)
          && queryDriver != null && fresh(queryDriver) && queryDriver.connected
          && queryDriver.calls == [DriverConnect(prepared.odbcString)]
          && registry.connections == old(registry.connections)[id := queryDriver]
          && id in metadata && metadata == old(metadata)[id := metadata[id]] && metadata[id].connected
          && registry.counter == old(registry.counter) + 1
          && registry.tunnels == (if prepared.tunnel.Some? then old(registry.tunnels)[id := prepared.tunnel.value] else old(registry.tunnels))
          && registry.closings == old(registry.closings)
               + (if prepared.tunnel.Some? && id in old(registry.tunnels) then [TunnelClosed(id)] else []))
      ensures queryFailure.None? && metaFailure.Some? && ExtractConnectionParams(request).Ok?
              && PrepareConnection(ExtractConnectionParams(request).value, tunnelConnect, localPort, driverPrefix).Ok? ==>
        queryDriver != null && !queryDriver.connected
        && queryDriver.calls == [DriverConnect(PrepareConnection(ExtractConnectionParams(request).value, tunnelConnect, localPort, driverPrefix).value.odbcString),
                                 OdbcCall.Disconnect]
    {
      queryDriver := null;
      var params := ExtractConnectionParams(request);
      if params.Err? {
        return ErrorResponse(params.error), null;
      }
      var prepared := PrepareConnection(params.value, tunnelConnect, localPort, driverPrefix);
      if prepared.Err? {
        return ErrorResponse(prepared.error), null;
      }
      queryDriver := new SqlServerDriver();
      var ok := queryDriver.Connect(prepared.value.odbcString, queryFailure);
      if !ok {
        return ErrorResponse("Connection failed: " + queryDriver.lastError), queryDriver;
      }
      var metadataDriver := new SqlServerDriver();
      ok := metadataDriver.Connect(prepared.value.odbcString, metaFailure);
      if !ok {
        queryDriver.Disconnect();
        return ErrorResponse("Metadata connection failed: " + metadataDriver.lastError), queryDriver;
      }
      var id := Register(queryDriver, metadataDriver, prepared.value.tunnel);
      response := SuccessResponse(ConnectedData(id));
    }

    /** The success path of `handleConnect`: the query driver is registered
        under a new id, the metadata driver kept under it, and the tunnel,
        if any, attached after both. */
    method Register(queryDriver: SqlServerDriver, metadataDriver: SqlServerDriver, tunnel: Option<SshTunnelConfig>)
      returns (id: seq<char>)
      requires Valid()
      modifies this, registry
      ensures Valid()
      ensures id == ConnId(old(registry.counter)) && id !in old(registry.connections)
      ensures registry.connections == old(registry.connections)[id := queryDriver]
      ensures metadata == old(metadata)[id := metadataDriver]
      ensures registry.counter == old(registry.counter) + 1
      ensures registry.tunnels == (if tunnel.Some? then old(registry.tunnels)[id := tunnel.value] else old(registry.tunnels))
      ensures registry.closings == old(registry.closings)
        + (if tunnel.Some? && id in old(registry.tunnels) then [TunnelClosed(id)] else [])
    {
      id := registry.Add(queryDriver);
      metadata := metadata[id := metadataDriver];
      if tunnel.Some? {
        registry.AttachTunnel(id, tunnel.value);
      }
    }

    /** `handleDisconnect`: the registry's `remove` of the id (tunnel first,
        then the query driver), then the metadata driver is disconnected and
        dropped; an unknown id changes nothing. */
    method HandleDisconnect(request: Result<Json>) returns (response: seq<char>)
      requires Valid()
      modifies this, registry,
        if ExtractConnectionId(request).Ok? && ExtractConnectionId(request).value in registry.connections
           && registry.connections[ExtractConnectionId(request).value] != null
        then {registry.connections[ExtractConnectionId(request).value]} else {},
        if ExtractConnectionId(request).Ok? && ExtractConnectionId(request).value in metadata
        then {metadata[ExtractConnectionId(request).value]} else {}
      ensures Valid()
      ensures ExtractConnectionId(request).Err? ==> (response == ErrorResponse(ExtractConnectionId(request).error)
        && registry.connections == old(registry.connections) && registry.tunnels == old(registry.tunnels)
        && metadata == old(metadata))
      ensures ExtractConnectionId(request).Ok? ==> (
        var id := ExtractConnectionId(request).value;
        response == SuccessResponse("{}")
        && registry.connections == old(registry.connections) - {id} && registry.tunnels == old(registry.tunnels) - {id}
        && metadata == old(metadata) - {id}
        && (id in old(metadata) ==> !old(metadata)[id].connected)
        && (id in old(registry.connections) && old(registry.connections)[id] != null ==> !old(registry.connections)[id].connected))
    {
      var id := ExtractConnectionId(request);
      if id.Err? {
        return ErrorResponse(id.error);
      }
      registry.Remove(id.value);
      if id.value in metadata {
        var driver := metadata[id.value];
        if driver.IsConnected() {
          driver.Disconnect();
        }
        metadata := metadata - {id.value};
      }
      response := SuccessResponse("{}");
    }

    /** `handleTestConnection`: a malformed request is an error; otherwise
        the answer is a success envelope whose `success` field says whether
        a connect with the prepared string worked. Nothing is registered. */
    method HandleTestConnection(request: Result<Json>, tunnelConnect: SshTunnelConfig -> Option<seq<char>>, localPort: nat,
                                failure: Option<seq<char>>)
      returns (response: seq<char>)
      ensures ExtractConnectionParams(request).Err? ==> response == ErrorResponse(ExtractConnectionParams(request).error)
      ensures ExtractConnectionParams(request).Ok? ==> (
        var prepared := PrepareConnection(ExtractConnectionParams(request).value, tunnelConnect, localPort, driverPrefix);
        response == SuccessResponse(
          if prepared.Err? then TestData(false, Escape(prepared.error))
          else if failure.None? then TestData(true, "Connection successful")
          else TestData(false, Escape(failure.value))))
    {
      var params := ExtractConnectionParams(request);
      if params.Err? {
        return ErrorResponse(params.error);
      }
      var prepared := PrepareConnection(params.value, tunnelConnect, localPort, driverPrefix);
      if prepared.Err? {
        return SuccessResponse(TestData(false, Escape(prepared.error)));
      }
      var driver := new SqlServerDriver();
      var ok := driver.Connect(prepared.value.odbcString, failure);
      if ok {
        driver.Disconnect();
        return SuccessResponse(TestData(true, "Connection successful"));
      }
      response := SuccessResponse(TestData(false, Escape(driver.lastError)));
    }
  }
}
