/** The pool of saved connection descriptions: each is accepted only after a
    test connection, looked up by id when a driver is wanted, and removed by
    id. Drivers are represented by the connection string they were opened
    with; whether a connection attempt succeeds is given by `connect`. */
module ConnectionPools {
  import opened Wrappers
  import opened Strings
  import opened Lists
  import opened ConnectionUtils

  /** A saved connection: the fields the pool reads. */
  datatype ConnectionInfo = ConnectionInfo(
    id: seq<char>,
    server: seq<char>,
    database: seq<char>,
    username: seq<char>,
    password: seq<char>,
    useWindowsAuth: bool,
    dbType: DbType)

  function HasId(id: seq<char>): ConnectionInfo -> bool {
    (info: ConnectionInfo) => info.id == id
  }

  /** The host before the first comma of the server and the text after it,
      or the whole server and the default port text. */
  function SplitServer(server: seq<char>, defaultPort: seq<char>): (r: (seq<char>, seq<char>))
    ensures ',' !in server ==> r == (server, defaultPort)
    ensures ',' in server ==> r.0 + "," + r.1 == server && ',' !in r.0
  {
    match IndexOf(server, ',')
    case Some(comma) => (server[..comma], server[comma + 1..])
    case None => (server, defaultPort)
  }

  /** `ConnectionPool::buildConnectionString` as written: for PostgreSQL and
      MySQL the host, the port text and the database go into the string
      unescaped; only the credentials are braced. */
  function ConnectionStringAsWritten(info: ConnectionInfo, driverPrefix: (seq<char>, seq<char>) -> seq<char>): seq<char> {
    match info.dbType
    case PostgreSQL =>
      var (host, port) := SplitServer(info.server, "5432");
      "Driver={" + PostgresDriver + "};" + "Server=" + host + ";Port=" + port + ";Database=" + info.database + ";"
        + (BracedField("Uid", info.username) + BracedField("Pwd", info.password))
    case MySQL =>
      var (host, port) := SplitServer(info.server, "3306");
      "Driver={" + MySqlDriver + "};" + "Server=" + host + ";Port=" + port + ";Database=" + info.database + ";"
        + (BracedField("User", info.username) + BracedField("Password", info.password))
    case SQLServer =>
      driverPrefix(info.server, info.database) + SqlServerCredentials(info.useWindowsAuth, "UID", "PWD", info.username, info.password)
  }

  /** The server splits at its first comma. */
  lemma SplitServerJoined(host: seq<char>, rest: seq<char>, defaultPort: seq<char>)
    requires ',' !in host
    ensures SplitServer(host + "," + rest, defaultPort) == (host, rest)
  {
    IndexOfAfter(host, ',', rest);
  }

  /** Two different saved connections that give the same PostgreSQL
      connection string: an attribute smuggled in after the port of the
      server cannot be told apart from one inside the database name. */
  lemma ConnectionStringAsWrittenAmbiguous(id: seq<char>, host: seq<char>, port: seq<char>, x: seq<char>, y: seq<char>,
                                           username: seq<char>, password: seq<char>, useWindowsAuth: bool,
                                           driverPrefix: (seq<char>, seq<char>) -> seq<char>)
    requires ',' !in host
    ensures var a := ConnectionInfo(id, host + "," + port + ";Database=" + x, y, username, password, useWindowsAuth, PostgreSQL);
      var b := ConnectionInfo(id, host + "," + port, x + ";Database=" + y, username, password, useWindowsAuth, PostgreSQL);
      a != b && ConnectionStringAsWritten(a, driverPrefix) == ConnectionStringAsWritten(b, driverPrefix)
  {
    var a := ConnectionInfo(id, host + "," + port + ";Database=" + x, y, username, password, useWindowsAuth, PostgreSQL);
    var b := ConnectionInfo(id, host + "," + port, x + ";Database=" + y, username, password, useWindowsAuth, PostgreSQL);
    assert |a.database| != |b.database|;
    assert a.server == host + "," + (port + ";Database=" + x);
    SplitServerJoined(host, port + ";Database=" + x, "5432");
    SplitServerJoined(host, port, "5432");
    AsWrittenPostgres(a, driverPrefix, host, port + ";Database=" + x);
    AsWrittenPostgres(b, driverPrefix, host, port);
    Regroup("Driver={" + PostgresDriver + "};" + "Server=" + host + ";Port=", port, x, y,
            ";" + (BracedField("Uid", username) + BracedField("Pwd", password)));
  }

  lemma AsWrittenPostgres(info: ConnectionInfo, driverPrefix: (seq<char>, seq<char>) -> seq<char>, host: seq<char>, port: seq<char>)
    requires info.dbType == PostgreSQL && SplitServer(info.server, "5432") == (host, port)
    ensures ConnectionStringAsWritten(info, driverPrefix)
      == "Driver={" + PostgresDriver + "};" + "Server=" + host + ";Port=" + port + ";Database=" + info.database
         + (";" + (BracedField("Uid", info.username) + BracedField("Pwd", info.password)))
  {
  }

  lemma Regroup(head: seq<char>, port: seq<char>, x: seq<char>, y: seq<char>, tail: seq<char>)
    ensures head + (port + ";Database=" + x) + ";Database=" + y + tail == head + port + ";Database=" + (x + ";Database=" + y) + tail
  {
  }

  /** The pool's connection string with every value braced, as
      `buildODBCConnectionString` does for the same kinds; the port is still
      the text after the comma. */
  function ConnectionString(info: ConnectionInfo, driverPrefix: (seq<char>, seq<char>) -> seq<char>): seq<char> {
    match info.dbType
    case PostgreSQL =>
      var (host, port) := SplitServer(info.server, "5432");
      NetworkString(PostgresDriver, host, port, info.database, "Uid", "Pwd", info.username, info.password)
    case MySQL =>
      var (host, port) := SplitServer(info.server, "3306");
      NetworkString(MySqlDriver, host, port, info.database, "User", "Password", info.username, info.password)
    case SQLServer =>
      driverPrefix(info.server, info.database) + SqlServerCredentials(info.useWindowsAuth, "UID", "PWD", info.username, info.password)
  }

  /** A PostgreSQL or MySQL pool string reads back as exactly the driver,
      host, port text, database and credentials, so distinct saved
      connections never share a string. */
  lemma ConnectionStringAttributes(info: ConnectionInfo, driverPrefix: (seq<char>, seq<char>) -> seq<char>)
    requires info.dbType != SQLServer
    ensures var pg := info.dbType == PostgreSQL;
      var (host, port) := SplitServer(info.server, if pg then "5432" else "3306");
      ReadAttributes(ConnectionString(info, driverPrefix))
      == Some(NetworkAttributes(if pg then PostgresDriver else MySqlDriver, host, port, info.database,
                                if pg then "Uid" else "User", if pg then "Pwd" else "Password", info.username, info.password))
  {
    if info.dbType == PostgreSQL {
      var (host, port) := SplitServer(info.server, "5432");
      NetworkStringBack(PostgresDriver, host, port, info.database, "Uid", "Pwd", info.username, info.password);
    } else {
      var (host, port) := SplitServer(info.server, "3306");
      NetworkStringBack(MySqlDriver, host, port, info.database, "User", "Password", info.username, info.password);
    }
  }

  /** SQL Server strings hold the upper-case `UID`/`PWD` keys, braced. */
  lemma SqlServerPoolCredentials(info: ConnectionInfo, driverPrefix: (seq<char>, seq<char>) -> seq<char>, prefix: seq<Attribute>)
    requires info.dbType == SQLServer
    requires AllReadable(prefix) && driverPrefix(info.server, info.database) == AttributesText(prefix)
    ensures ReadAttributes(ConnectionString(info, driverPrefix))
      == Some(prefix + CredentialAttributes(info.useWindowsAuth, "UID", "PWD", info.username, info.password))
  {
    CredentialsBack(prefix, info.useWindowsAuth, "UID", "PWD", info.username, info.password);
  }

  /** The pool. Its methods connect on `ConnectionString`, the braced
      string, where `buildConnectionString` as written
      (`ConnectionStringAsWritten`) leaves the host, the port and the
      database of PostgreSQL and MySQL unbraced. */
  class ConnectionPool {
    var connections: seq<ConnectionInfo>
    /** `buildDriverConnectionPrefix`, which is not part of this model. */
    const driverPrefix: (seq<char>, seq<char>) -> seq<char>

    constructor(driverPrefix: (seq<char>, seq<char>) -> seq<char>)
      ensures connections == [] && this.driverPrefix == driverPrefix
    {
      connections := [];
      this.driverPrefix := driverPrefix;
    }

    /** `addConnection`: the description is kept, at the end, only when a
        test connection with its string succeeds. */
    method AddConnection(info: ConnectionInfo, connect: seq<char> -> bool) returns (added: bool)
      modifies this
      ensures added == connect(ConnectionString(info, driverPrefix))
      ensures connections == if added then old(connections) + [info] else old(connections)
    {
      var connStr := ConnectionString(info, driverPrefix);
      if !connect(connStr) {
        return false;
      }
      connections := connections + [info];
      return true;
    }

    /** `removeConnection`: every description with the id goes, the others
        stay in their order. */
    method RemoveConnection(id: seq<char>)
      modifies this
      ensures connections == RemoveAll(old(connections), HasId(id))
      ensures forall info :: info in connections <==> info in old(connections) && info.id != id
    {
      connections := RemoveAll(connections, HasId(id));
      forall info ensures info in connections <==> info in old(connections) && info.id != id {
        RemoveAllMembers(old(connections), HasId(id), info);
      }
    }

    /** `acquire`: a driver connected with the string of the first
        description with the id; nothing when there is none or the
        connection fails. */
    method Acquire(id: seq<char>, connect: seq<char> -> bool) returns (driver: Option<seq<char>>)
      ensures FindFirst(connections, HasId(id)).None? ==> driver.None?
      ensures forall i :: FindFirst(connections, HasId(id)) == Some(i) ==>
        driver == (if connect(ConnectionString(connections[i], driverPrefix)) then Some(ConnectionString(connections[i], driverPrefix)) else None)
    {
      match FindFirst(connections, HasId(id))
      case None =>
        return None;
      case Some(i) =>
        var connStr := ConnectionString(connections[i], driverPrefix);
        if !connect(connStr) {
          return None;
        }
        return Some(connStr);
    }

    /** `getConnections`: the descriptions in the order they were added. */
    method GetConnections() returns (all: seq<ConnectionInfo>)
      ensures all == connections
    {
      return connections;
    }

    /** `testConnection`: whether a connection with the description's
        string succeeds; the pool does not change. */
    method TestConnection(info: ConnectionInfo, connect: seq<char> -> bool) returns (success: bool)
      ensures success == connect(ConnectionString(info, driverPrefix))
    {
      success := connect(ConnectionString(info, driverPrefix));
    }
  }

  /** Removing the same id twice leaves the pool as removing it once. */
  lemma RemoveConnectionIdempotent(connections: seq<ConnectionInfo>, id: seq<char>)
    ensures RemoveAll(RemoveAll(connections, HasId(id)), HasId(id)) == RemoveAll(connections, HasId(id))
  {
    RemoveAllIdempotent(connections, HasId(id));
  }

  /** Once an id is removed, acquiring it finds nothing. */
  lemma AcquireAfterRemove(connections: seq<ConnectionInfo>, id: seq<char>)
    ensures FindFirst(RemoveAll(connections, HasId(id)), HasId(id)).None?
  {
    var rest := RemoveAll(connections, HasId(id));
    forall j | 0 <= j < |rest| ensures !HasId(id)(rest[j]) {
      RemoveAllMembers(connections, HasId(id), rest[j]);
    }
  }

  /** A description just added is found by its id unless an earlier one
      shares it. */
  lemma FindAfterAdd(connections: seq<ConnectionInfo>, info: ConnectionInfo)
    requires forall j :: 0 <= j < |connections| ==> connections[j].id != info.id
    ensures FindFirst(connections + [info], HasId(info.id)) == Some(|connections|)
  {
    var all := connections + [info];
    assert HasId(info.id)(all[|connections|]);
    forall j | 0 <= j < |connections| ensures !HasId(info.id)(all[j]) {
      assert all[j] == connections[j];
    }
  }
}
