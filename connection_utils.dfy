/** Connection parameters of the three database kinds and the ODBC
    connection strings built from them. Every value the user supplies is
    written as a braced ODBC value, so that a connection-string reader
    gets back exactly the attributes that were meant, whatever characters
    the values hold. */
module ConnectionUtils {
  import opened Wrappers
  import opened Strings
  import opened Requests

  datatype DbType = SQLServer | PostgreSQL | MySQL

  /** `defaultDbPort` */
  function DefaultDbPort(dbType: DbType): (port: int)
    ensures 1 <= port <= 65535
  {
    match dbType
    case PostgreSQL => 5432
    case MySQL => 3306
    case SQLServer => 1433
  }

  // ---------------------------------------------------------------------------
  // `host,port`
  // ---------------------------------------------------------------------------

  /** The end of the run of decimal digits that starts at `i`. */
  function DigitsEnd(s: seq<char>, i: nat): (e: nat)
    requires i <= |s|
    ensures i <= e <= |s|
    ensures forall k :: i <= k < e ==> IsDigit(s[k])
    ensures e == |s| || !IsDigit(s[e])
    decreases |s| - i
  {
    if i < |s| && IsDigit(s[i]) then DigitsEnd(s, i + 1) else i
  }

  const MinInt32: int := -0x8000_0000
  const MaxInt32: int := 0x7FFF_FFFF

  /** `std::from_chars` into an `int`: an optional `-` and at least one
      digit; the digits that follow are read, and whatever comes after them
      is ignored. An error when no digit comes first or the value does not
      fit 32 bits. */
  function FromChars(s: seq<char>): Option<int> {
    var start := if |s| > 0 && s[0] == '-' then 1 else 0;
    var e := DigitsEnd(s, start);
    if e == start then None
    else
      var magnitude: int := DigitsValue(s[start..e]);
      var v: int := if start == 1 then -magnitude else magnitude;
      if MinInt32 <= v <= MaxInt32 then Some(v) else None
  }

  datatype HostPort = HostPort(host: seq<char>, port: int)

  /** `splitHostPort`: the text before the first comma, and the number after
      it when that number is a TCP port; otherwise the default port. */
  function SplitHostPort(server: seq<char>, defaultPort: int): (r: HostPort)
    ensures ',' !in server ==> r == HostPort(server, defaultPort)
    ensures ',' !in r.host && r.host <= server
    ensures ',' in server ==> |r.host| < |server| && server[|r.host|] == ','
    ensures ',' in server ==>
      var parsed := FromChars(server[|r.host| + 1..]);
      r.port == (if parsed.Some? && 1 <= parsed.value <= 65535 then parsed.value else defaultPort)
    ensures 1 <= defaultPort <= 65535 ==> 1 <= r.port <= 65535
  {
    match IndexOf(server, ',')
    case None => HostPort(server, defaultPort)
    case Some(comma) =>
      var parsed := FromChars(server[comma + 1..]);
      var port := if parsed.Some? && 1 <= parsed.value <= 65535 then parsed.value else defaultPort;
      HostPort(server[..comma], port)
  }

  /** A decimal number is read back by `from_chars`. */
  lemma FromCharsNat(n: nat)
    requires n <= MaxInt32
    ensures FromChars(NatToString(n)) == Some(n)
  {
    var s := NatToString(n);
    NatToStringRoundTrip(n);
    assert s[0] != '-' by { assert IsDigit(s[0]); }
    assert DigitsEnd(s, 0) == |s|;
    assert s[0..|s|] == s;
  }

  /** Splitting `host,port` gives back the host and the port it was made
      of, whatever the default. */
  lemma SplitHostPortJoin(host: seq<char>, port: int, defaultPort: int)
    requires ',' !in host && 1 <= port <= 65535
    ensures SplitHostPort(host + "," + NatToString(port), defaultPort) == HostPort(host, port)
  {
    var s := host + "," + NatToString(port);
    var c := |host|;
    assert s[c] == ',';
    assert ',' !in s[..c] by { assert s[..c] == host; }
    IndexOfAt(s, ',', c);
    assert s[c + 1..] == NatToString(port);
    FromCharsNat(port);
    assert s[..c] == host;
  }

  /** A port text that is not a TCP port leaves the default in place. */
  lemma SplitHostPortFallback(host: seq<char>, portText: seq<char>, defaultPort: int)
    requires ',' !in host
    requires FromChars(portText).None? || !(1 <= FromChars(portText).value <= 65535)
    ensures SplitHostPort(host + "," + portText, defaultPort) == HostPort(host, defaultPort)
  {
    var s := host + "," + portText;
    var c := |host|;
    assert s[c] == ',';
    assert ',' !in s[..c] by { assert s[..c] == host; }
    IndexOfAt(s, ',', c);
    assert s[c + 1..] == portText;
    assert s[..c] == host;
  }

  // ---------------------------------------------------------------------------
  // ODBC values
  // ---------------------------------------------------------------------------

  function BraceEscape(c: char): seq<char> { if c == '}' then "}}" else [c] }

  /** A braced ODBC value: `{`, the text with every `}` doubled, `}`. */
  function OdbcValue(value: seq<char>): seq<char> {
    "{" + MapConcat(value, BraceEscape) + "}"
  }

  /** `escapeOdbcValue` */
  method EscapeOdbcValue(value: seq<char>) returns (result: seq<char>)
    ensures result == OdbcValue(value)
    ensures |result| == |value| + CountChar(value, '}') + 2
    ensures Undoubled(result[1..|result| - 1], '}') == value
  {
    var inner := [];
    var i := 0;
    while i < |value|
      invariant 0 <= i <= |value|
      invariant inner == MapConcat(value[..i], BraceEscape)
    {
      MapConcatStep(value, i, BraceEscape);
      if value[i] == '}' {
        inner := inner + "}}";
      } else {
        inner := inner + [value[i]];
      }
      i := i + 1;
    }
    assert value[..i] == value;
    result := "{" + inner + "}";
    assert result[1..|result| - 1] == inner;
    assert DoublesOnly(BraceEscape, '}');
    UndoubleDoubled(value, '}', BraceEscape);
  }

  // ---------------------------------------------------------------------------
  // Reading a connection string back
  // ---------------------------------------------------------------------------

  /** One `key=value;` attribute; `braced` tells whether the value is
      written between braces. */
  datatype Attribute = Attribute(key: seq<char>, value: seq<char>, braced: bool)

  function ValueText(a: Attribute): seq<char> {
    if a.braced then OdbcValue(a.value) else a.value
  }

  function AttributeText(a: Attribute): seq<char> {
    a.key + "=" + ValueText(a) + ";"
  }

  function AttributesText(attrs: seq<Attribute>): seq<char> {
    if attrs == [] then [] else AttributeText(attrs[0]) + AttributesText(attrs[1..])
  }

  /** The inside of a braced value, read from just after its `{`: `}}`
      stands for `}`, and a single `}` closes the value. Gives the value
      and the text after the closing brace. */
  function ReadBraced(s: seq<char>): (r: Option<(seq<char>, seq<char>)>)
    ensures r.Some? ==> |r.value.1| < |s|
  {
    if s == [] then None
    else if s[0] == '}' && |s| > 1 && s[1] == '}' then
      match ReadBraced(s[2..])
      case None => None
      case Some((v, rest)) => Some((['}'] + v, rest))
    else if s[0] == '}' then Some(([], s[1..]))
    else
      match ReadBraced(s[1..])
      case None => None
      case Some((v, rest)) => Some(([s[0]] + v, rest))
  }

  /** A value: braced, or everything up to the next `;`. Gives the value,
      whether it was braced, and the text after it. */
  function ReadValue(s: seq<char>): (r: Option<(seq<char>, bool, seq<char>)>)
    ensures r.Some? ==> |r.value.2| <= |s|
  {
    if s != [] && s[0] == '{' then
      match ReadBraced(s[1..])
      case None => None
      case Some((v, rest)) => Some((v, true, rest))
    else
      match IndexOf(s, ';')
      case None => Some((s, false, []))
      case Some(k) => Some((s[..k], false, s[k..]))
  }

  /** One `key=value`, and the text after the value. */
  function ReadAttribute(s: seq<char>): (r: Option<(Attribute, seq<char>)>)
    ensures r.Some? ==> |r.value.1| < |s|
  {
    match IndexOf(s, '=')
    case None => None
    case Some(eq) =>
      match ReadValue(s[eq + 1..])
      case None => None
      case Some((v, braced, rest)) => Some((Attribute(s[..eq], v, braced), rest))
  }

  /** `Some([a] + rest)` when the rest is read. */
  function Prepend(a: Attribute, rest: Option<seq<Attribute>>): Option<seq<Attribute>> {
    match rest
    case None => None
    case Some(r) => Some([a] + r)
  }

  /** The attributes of a connection string, the way an ODBC driver manager
      splits it: each ends at a `;`, or at the end of the text. */
  function ReadAttributes(s: seq<char>): Option<seq<Attribute>>
    decreases |s|
  {
    if s == [] then Some([])
    else
      match ReadAttribute(s)
      case None => None
      case Some((a, rest)) =>
        if rest == [] then Some([a])
        else if rest[0] != ';' then None
        else Prepend(a, ReadAttributes(rest[1..]))
  }

  /** An attribute that reads back as itself: a key without `=`, and a bare
      value that neither holds a `;` nor starts with a brace. */
  predicate Readable(a: Attribute) {
    '=' !in a.key && (!a.braced ==> ';' !in a.value && (a.value == [] || a.value[0] != '{'))
  }

  /** Every attribute of the list is readable. */
  predicate AllReadable(attrs: seq<Attribute>) {
    attrs == [] || (Readable(attrs[0]) && AllReadable(attrs[1..]))
  }

  /** The first `c` of `w + [c] + rest` is the one after `w`. */
  lemma IndexOfAfter(w: seq<char>, c: char, rest: seq<char>)
    requires c !in w
    ensures IndexOf(w + [c] + rest, c) == Some(|w|)
    ensures (w + [c] + rest)[..|w|] == w && (w + [c] + rest)[|w| + 1..] == rest
  {
    var s := w + [c] + rest;
    assert s[..|w|] == w;
    IndexOfAt(s, c, |w|);
  }

  /** The escaped inside of a braced value, its closing brace and text that
      does not start with `}`, is read back as the value and that text. */
  lemma {:induction false} ReadBracedBack(v: seq<char>, rest: seq<char>)
    requires rest != [] && rest[0] != '}'
    ensures ReadBraced(MapConcat(v, BraceEscape) + "}" + rest) == Some((v, rest))
    decreases |v|
  {
    if v == [] {
      assert MapConcat(v, BraceEscape) + "}" + rest == ['}'] + rest;
    } else {
      var x, tail := v[0], v[1..];
      var more := MapConcat(tail, BraceEscape) + "}" + rest;
      MapConcatCons(x, tail, BraceEscape);
      assert v == [x] + tail;
      assert MapConcat(v, BraceEscape) + "}" + rest == BraceEscape(x) + more;
      ReadBracedBack(tail, rest);
      if x == '}' {
        assert (BraceEscape(x) + more)[2..] == more;
      } else {
        assert (BraceEscape(x) + more)[1..] == more;
      }
    }
  }

  /** A value followed by `;` is read as itself, up to that `;`. */
  lemma ReadValueBack(a: Attribute, more: seq<char>)
    requires Readable(a)
    ensures ReadValue(ValueText(a) + (";" + more)) == Some((a.value, a.braced, ";" + more))
  {
    var rest := ";" + more;
    if a.braced {
      var inner := MapConcat(a.value, BraceEscape);
      assert (ValueText(a) + rest)[1..] == inner + "}" + rest;
      ReadBracedBack(a.value, rest);
    } else {
      IndexOfAfter(a.value, ';', more);
      assert ValueText(a) + rest == a.value + [';'] + more;
      assert (a.value + [';'] + more)[|a.value|..] == rest;
    }
  }

  /** One attribute followed by more text is read as itself, and reading
      stops at its `;`. */
  lemma ReadAttributeBack(a: Attribute, more: seq<char>)
    requires Readable(a)
    ensures ReadAttribute(AttributeText(a) + more) == Some((a, ";" + more))
  {
    var body := ValueText(a) + (";" + more);
    assert AttributeText(a) + more == a.key + ['='] + body;
    IndexOfAfter(a.key, '=', body);
    ReadValueBack(a, more);
  }

  /** Readable attributes are read back exactly, one after the other. */
  lemma {:induction false} ReadAttributesBack(attrs: seq<Attribute>)
    requires AllReadable(attrs)
    ensures ReadAttributes(AttributesText(attrs)) == Some(attrs)
    decreases |attrs|
  {
    if attrs != [] {
      var a, others := attrs[0], attrs[1..];
      var more := AttributesText(others);
      assert AttributesText(attrs) == AttributeText(a) + more;
      ReadAttributeBack(a, more);
      ReadAttributesCons(AttributesText(attrs), a, more);
      ReadAttributesBack(others);
      assert attrs == [a] + others;
    }
  }

  /** An attribute followed by `;` is read before the rest. */
  lemma ReadAttributesCons(s: seq<char>, a: Attribute, more: seq<char>)
    requires ReadAttribute(s) == Some((a, ";" + more))
    ensures ReadAttributes(s) == Prepend(a, ReadAttributes(more))
  {
    assert |";" + more| < |s|;
    assert (";" + more)[1..] == more;
  }

  /** The text of two attribute lists, one after the other, is the text of
      the joined list. */
  lemma {:induction false} AttributesTextAppend(p: seq<Attribute>, q: seq<Attribute>)
    ensures AttributesText(p + q) == AttributesText(p) + AttributesText(q)
    decreases |p|
  {
    if p == [] {
      assert p + q == q;
    } else {
      assert (p + q)[0] == p[0] && (p + q)[1..] == p[1..] + q;
      AttributesTextAppend(p[1..], q);
    }
  }

  lemma {:induction false} AllReadableAppend(p: seq<Attribute>, q: seq<Attribute>)
    requires AllReadable(p) && AllReadable(q)
    ensures AllReadable(p + q)
    decreases |p|
  {
    if p == [] {
      assert p + q == q;
    } else {
      assert (p + q)[0] == p[0] && (p + q)[1..] == p[1..] + q;
      AllReadableAppend(p[1..], q);
    }
  }

  // ---------------------------------------------------------------------------
  // Connection parameters
  // ---------------------------------------------------------------------------

  datatype SshConnectionParams = SshConnectionParams(
    enabled: bool,
    host: seq<char>,
    port: int,
    username: seq<char>,
    authType: seq<char>,
    password: seq<char>,
    privateKeyPath: seq<char>,
    keyPassphrase: seq<char>)

  /** The SSH settings of a request that has none: disabled, port 22. */
  const DefaultSsh: SshConnectionParams := SshConnectionParams(false, [], 22, [], [], [], [], [])

  datatype DatabaseConnectionParams = DatabaseConnectionParams(
    server: seq<char>,
    database: seq<char>,
    username: seq<char>,
    password: seq<char>,
    useWindowsAuth: bool,
    dbType: DbType,
    ssh: SshConnectionParams)

  /** `static_cast<int>` of a 64-bit integer: the value modulo 2^32, read as
      a signed 32-bit number. */
  function ToInt32(v: int): (r: int)
    ensures MinInt32 <= r <= MaxInt32
    ensures MinInt32 <= v <= MaxInt32 ==> r == v
  {
    (v - MinInt32) % 0x1_0000_0000 + MinInt32
  }

  /** The database kind named by the request: anything that is neither
      `postgresql` nor `mysql` is SQL Server. */
  function DbTypeOf(name: seq<char>): DbType {
    if name == "postgresql" then PostgreSQL
    else if name == "mysql" then MySQL
    else SQLServer
  }

  /** The SSH settings of a request: `enabled` when given, and the other
      fields only when SSH is enabled. */
  function SshParamsOf(ssh: Json): (r: SshConnectionParams)
    ensures !r.enabled ==> r == DefaultSsh
  {
    var enabled := BoolOr(ssh, "enabled", false);
    if !enabled then DefaultSsh
    else
      SshConnectionParams(
        true,
        StringOr(ssh, "host", []),
        match GetInt64(ssh, "port") case Some(p) => ToInt32(p) case None => 22,
        StringOr(ssh, "username", []),
        StringOr(ssh, "authType", []),
        StringOr(ssh, "password", []),
        StringOr(ssh, "privateKeyPath", []),
        StringOr(ssh, "keyPassphrase", []))
  }

  /** `extractConnectionParams`: `server` and `database` are required
      strings; every other field keeps its default when it is absent or of
      another type. A request that did not parse lacks every field. */
  function ExtractConnectionParams(request: Result<Json>): (r: Result<DatabaseConnectionParams>)
    ensures r.Ok? <==> GetString(Fields(request), "server").Some? && GetString(Fields(request), "database").Some?
    ensures r.Err? ==> r.error == "Missing required fields: server or database"
    ensures r.Ok? ==> (r.value.server == GetString(Fields(request), "server").value
                       && r.value.database == GetString(Fields(request), "database").value)
  {
    var doc := Fields(request);
    match (GetString(doc, "server"), GetString(doc, "database"))
    case (Some(server), Some(database)) =>
      Ok(DatabaseConnectionParams(
        server,
        database,
        StringOr(doc, "username", []),
        StringOr(doc, "password", []),
        BoolOr(doc, "useWindowsAuth", true),
        match GetString(doc, "dbType") case Some(name) => DbTypeOf(name) case None => SQLServer,
        match Get(doc, "ssh") case Some(ssh) => SshParamsOf(ssh) case None => DefaultSsh))
    case _ => Err("Missing required fields: server or database")
  }

  /** `extractConnectionId` */
  function ExtractConnectionId(request: Result<Json>): (r: Result<seq<char>>)
    ensures r.Ok? <==> GetString(Fields(request), "connectionId").Some?
    ensures r.Ok? ==> r.value == GetString(Fields(request), "connectionId").value
    ensures r.Err? ==> r.error == "Missing connectionId field"
  {
    match GetString(Fields(request), "connectionId")
    case Some(id) => Ok(id)
    case None => Err("Missing connectionId field")
  }

  /** The name under which a database kind is sent. */
  function DbTypeName(t: DbType): seq<char> {
    match t
    case PostgreSQL => "postgresql"
    case MySQL => "mysql"
    case SQLServer => "sqlserver"
  }

  /** The request a client sends for the given parameters. */
  function RequestOf(p: DatabaseConnectionParams): Json {
    JObject(map[
      "server" := JString(p.server),
      "database" := JString(p.database),
      "username" := JString(p.username),
      "password" := JString(p.password),
      "useWindowsAuth" := JBool(p.useWindowsAuth),
      "dbType" := JString(DbTypeName(p.dbType)),
      "ssh" := SshRequestOf(p.ssh)])
  }

  function SshRequestOf(ssh: SshConnectionParams): Json {
    JObject(map[
      "enabled" := JBool(ssh.enabled),
      "host" := JString(ssh.host),
      "port" := JInt(ssh.port),
      "username" := JString(ssh.username),
      "authType" := JString(ssh.authType),
      "password" := JString(ssh.password),
      "privateKeyPath" := JString(ssh.privateKeyPath),
      "keyPassphrase" := JString(ssh.keyPassphrase)])
  }

  lemma SshRequestOfRead(ssh: SshConnectionParams)
    requires MinInt32 <= ssh.port <= MaxInt32
    requires !ssh.enabled ==> ssh == DefaultSsh
    ensures SshParamsOf(SshRequestOf(ssh)) == ssh
  {
    var doc := SshRequestOf(ssh);
    assert BoolOr(doc, "enabled", false) == ssh.enabled;
    if ssh.enabled {
      assert StringOr(doc, "host", []) == ssh.host;
      assert GetInt64(doc, "port") == Some(ssh.port);
      assert StringOr(doc, "username", []) == ssh.username;
      assert StringOr(doc, "authType", []) == ssh.authType;
      assert StringOr(doc, "password", []) == ssh.password;
      assert StringOr(doc, "privateKeyPath", []) == ssh.privateKeyPath;
      assert StringOr(doc, "keyPassphrase", []) == ssh.keyPassphrase;
    }
  }

  /** Parameters sent as a request are extracted unchanged, provided the SSH
      port fits 32 bits and disabled SSH settings hold nothing but the
      defaults (they are not read). */
  lemma ExtractRequestOf(p: DatabaseConnectionParams)
    requires MinInt32 <= p.ssh.port <= MaxInt32
    requires !p.ssh.enabled ==> p.ssh == DefaultSsh
    ensures ExtractConnectionParams(Ok(RequestOf(p))) == Ok(p)
  {
    var doc := RequestOf(p);
    assert GetString(doc, "server") == Some(p.server);
    assert GetString(doc, "database") == Some(p.database);
    assert StringOr(doc, "username", []) == p.username;
    assert StringOr(doc, "password", []) == p.password;
    assert BoolOr(doc, "useWindowsAuth", true) == p.useWindowsAuth;
    assert GetString(doc, "dbType") == Some(DbTypeName(p.dbType));
    assert DbTypeOf(DbTypeName(p.dbType)) == p.dbType;
    assert Get(doc, "ssh") == Some(SshRequestOf(p.ssh));
    SshRequestOfRead(p.ssh);
  }

  /** Disabled SSH settings are dropped whatever they hold. */
  lemma DisabledSshIgnored(ssh: Json)
    requires GetBool(ssh, "enabled") != Some(true)
    ensures SshParamsOf(ssh) == DefaultSsh
  {
  }

  // ---------------------------------------------------------------------------
  // Connection strings
  // ---------------------------------------------------------------------------

  const PostgresDriver: seq<char> := "PostgreSQL ODBC Driver(UNICODE)"
  const MySqlDriver: seq<char> := "MySQL ODBC 8.0 Unicode Driver"

  /** `key=` + the braced value + `;`. */
  function BracedField(key: seq<char>, value: seq<char>): seq<char> {
    key + "=" + OdbcValue(value) + ";"
  }

  /** `buildODBCConnectionString`. The SQL Server prefix (driver, server and
      database) comes from `buildDriverConnectionPrefix`, which is not part
      of this model and is passed in. */
  function BuildOdbcConnectionString(params: DatabaseConnectionParams, driverPrefix: (seq<char>, seq<char>) -> seq<char>): seq<char> {
    match params.dbType
    case PostgreSQL =>
      var hp := SplitHostPort(params.server, DefaultDbPort(PostgreSQL));
      NetworkString(PostgresDriver, hp.host, IntToString(hp.port), params.database, "Uid", "Pwd", params.username, params.password)
    case MySQL =>
      var hp := SplitHostPort(params.server, DefaultDbPort(MySQL));
      NetworkString(MySqlDriver, hp.host, IntToString(hp.port), params.database, "User", "Password", params.username, params.password)
    case SQLServer =>
      driverPrefix(params.server, params.database) + SqlServerCredentials(params.useWindowsAuth, "Uid", "Pwd", params.username, params.password)
  }

  /** The PostgreSQL and MySQL format: the driver between literal braces,
      then every other value escaped. */
  function NetworkString(driver: seq<char>, host: seq<char>, port: seq<char>, database: seq<char>,
                         userKey: seq<char>, passwordKey: seq<char>, username: seq<char>, password: seq<char>): seq<char> {
    "Driver={" + driver + "};" + BracedField("Server", host) + BracedField("Port", port) + BracedField("Database", database)
      + (BracedField(userKey, username) + BracedField(passwordKey, password))
  }

  /** The SQL Server credentials: integrated security, or the braced user
      and password under the given keys. */
  function SqlServerCredentials(useWindowsAuth: bool, userKey: seq<char>, passwordKey: seq<char>, username: seq<char>, password: seq<char>): seq<char> {
    if useWindowsAuth then "Trusted_Connection=yes;"
    else BracedField(userKey, username) + BracedField(passwordKey, password)
  }

  /** The attributes a PostgreSQL or MySQL connection string is made of. */
  function NetworkAttributes(driver: seq<char>, host: seq<char>, port: seq<char>, database: seq<char>,
                             userKey: seq<char>, passwordKey: seq<char>, username: seq<char>, password: seq<char>): seq<Attribute> {
    [Attribute("Driver", driver, true), Attribute("Server", host, true), Attribute("Port", port, true),
     Attribute("Database", database, true), Attribute(userKey, username, true), Attribute(passwordKey, password, true)]
  }

  /** A text without `}` is its own braced inside. */
  lemma NoBraceUnchanged(v: seq<char>)
    requires '}' !in v
    ensures OdbcValue(v) == "{" + v + "}"
  {
    forall i | 0 <= i < |v| ensures BraceEscape(v[i]) == [v[i]] {
      assert v[i] in v;
    }
    MapConcatIdentity(v, BraceEscape);
  }

  lemma BracedFieldText(key: seq<char>, value: seq<char>)
    ensures BracedField(key, value) == AttributeText(Attribute(key, value, true))
  {
  }

  /** The text of a two-attribute list. */
  lemma PairText(a: Attribute, b: Attribute)
    ensures AttributesText([a, b]) == AttributeText(a) + AttributeText(b)
  {
    assert [a, b][1..] == [b];
    assert AttributesText([b]) == AttributeText(b) + AttributesText([]);
  }

  /** Text made of readable attributes reads back as them. */
  lemma ReadBack(text: seq<char>, attrs: seq<Attribute>)
    requires AllReadable(attrs) && text == AttributesText(attrs)
    ensures ReadAttributes(text) == Some(attrs)
  {
    ReadAttributesBack(attrs);
  }

  lemma NetworkText(driver: seq<char>, host: seq<char>, port: seq<char>, database: seq<char>,
                    userKey: seq<char>, passwordKey: seq<char>, username: seq<char>, password: seq<char>)
    requires '}' !in driver
    ensures NetworkString(driver, host, port, database, userKey, passwordKey, username, password)
      == AttributesText(NetworkAttributes(driver, host, port, database, userKey, passwordKey, username, password))
  {
    var attrs := NetworkAttributes(driver, host, port, database, userKey, passwordKey, username, password);
    var d, sv, pt, db, u, pw := attrs[0], attrs[1], attrs[2], attrs[3], attrs[4], attrs[5];
    NoBraceUnchanged(driver);
    assert "Driver={" + driver + "};" == AttributeText(d);
    PairText(d, sv);
    PairText(pt, db);
    PairText(u, pw);
    AttributesTextAppend([d, sv], [pt, db]);
    assert [d, sv] + [pt, db] == attrs[..4];
    AttributesTextAppend(attrs[..4], [u, pw]);
    assert attrs[..4] + [u, pw] == attrs;
    AppendAssoc(AttributeText(d) + AttributeText(sv), AttributeText(pt), AttributeText(db));
  }

  lemma NetworkReadable(driver: seq<char>, host: seq<char>, port: seq<char>, database: seq<char>,
                        userKey: seq<char>, passwordKey: seq<char>, username: seq<char>, password: seq<char>)
    requires '=' !in userKey && '=' !in passwordKey
    ensures AllReadable(NetworkAttributes(driver, host, port, database, userKey, passwordKey, username, password))
  {
    var attrs := NetworkAttributes(driver, host, port, database, userKey, passwordKey, username, password);
    assert AllReadable(attrs[5..]);
    assert AllReadable(attrs[4..]);
    assert AllReadable(attrs[3..]);
    assert AllReadable(attrs[2..]);
    assert AllReadable(attrs[1..]);
  }

  /** A driver, server, port and database followed by two credentials read
      back as exactly these six attributes, whatever the values hold. */
  lemma NetworkStringBack(driver: seq<char>, host: seq<char>, port: seq<char>, database: seq<char>,
                          userKey: seq<char>, passwordKey: seq<char>, username: seq<char>, password: seq<char>)
    requires '}' !in driver && '=' !in userKey && '=' !in passwordKey
    ensures ReadAttributes(NetworkString(driver, host, port, database, userKey, passwordKey, username, password))
      == Some(NetworkAttributes(driver, host, port, database, userKey, passwordKey, username, password))
  {
    NetworkText(driver, host, port, database, userKey, passwordKey, username, password);
    NetworkReadable(driver, host, port, database, userKey, passwordKey, username, password);
    ReadBack(NetworkString(driver, host, port, database, userKey, passwordKey, username, password),
             NetworkAttributes(driver, host, port, database, userKey, passwordKey, username, password));
  }

  /** A PostgreSQL connection string holds, attribute for attribute, the
      driver, the host and port split from the server, the database, the
      user and the password: no value can add or change an attribute. */
  lemma PostgresConnectionAttributes(params: DatabaseConnectionParams, driverPrefix: (seq<char>, seq<char>) -> seq<char>)
    requires params.dbType == PostgreSQL
    ensures var hp := SplitHostPort(params.server, 5432);
      ReadAttributes(BuildOdbcConnectionString(params, driverPrefix))
      == Some(NetworkAttributes(PostgresDriver, hp.host, IntToString(hp.port), params.database, "Uid", "Pwd", params.username, params.password))
  {
    var hp := SplitHostPort(params.server, 5432);
    NetworkStringBack(PostgresDriver, hp.host, IntToString(hp.port), params.database, "Uid", "Pwd", params.username, params.password);
  }

  /** The same for MySQL, whose credentials are `User` and `Password`. */
  lemma MySqlConnectionAttributes(params: DatabaseConnectionParams, driverPrefix: (seq<char>, seq<char>) -> seq<char>)
    requires params.dbType == MySQL
    ensures var hp := SplitHostPort(params.server, 3306);
      ReadAttributes(BuildOdbcConnectionString(params, driverPrefix))
      == Some(NetworkAttributes(MySqlDriver, hp.host, IntToString(hp.port), params.database, "User", "Password", params.username, params.password))
  {
    var hp := SplitHostPort(params.server, 3306);
    NetworkStringBack(MySqlDriver, hp.host, IntToString(hp.port), params.database, "User", "Password", params.username, params.password);
  }

  /** The attributes SQL Server credentials are made of. */
  function CredentialAttributes(useWindowsAuth: bool, userKey: seq<char>, passwordKey: seq<char>, username: seq<char>, password: seq<char>): seq<Attribute> {
    if useWindowsAuth then [Attribute("Trusted_Connection", "yes", false)]
    else [Attribute(userKey, username, true), Attribute(passwordKey, password, true)]
  }

  /** The credentials read back as integrated security, or as exactly the
      user and the password; after a prefix that reads as attributes, the
      whole string reads as those attributes followed by the credentials. */
  lemma CredentialsBack(prefix: seq<Attribute>, useWindowsAuth: bool, userKey: seq<char>, passwordKey: seq<char>,
                        username: seq<char>, password: seq<char>)
    requires AllReadable(prefix) && '=' !in userKey && '=' !in passwordKey
    ensures ReadAttributes(AttributesText(prefix) + SqlServerCredentials(useWindowsAuth, userKey, passwordKey, username, password))
      == Some(prefix + CredentialAttributes(useWindowsAuth, userKey, passwordKey, username, password))
  {
    var creds := CredentialAttributes(useWindowsAuth, userKey, passwordKey, username, password);
    CredentialsText(useWindowsAuth, userKey, passwordKey, username, password);
    AttributesTextAppend(prefix, creds);
    AllReadableAppend(prefix, creds);
    ReadBack(AttributesText(prefix) + SqlServerCredentials(useWindowsAuth, userKey, passwordKey, username, password), prefix + creds);
  }

  lemma CredentialsText(useWindowsAuth: bool, userKey: seq<char>, passwordKey: seq<char>, username: seq<char>, password: seq<char>)
    requires '=' !in userKey && '=' !in passwordKey
    ensures SqlServerCredentials(useWindowsAuth, userKey, passwordKey, username, password)
      == AttributesText(CredentialAttributes(useWindowsAuth, userKey, passwordKey, username, password))
    ensures AllReadable(CredentialAttributes(useWindowsAuth, userKey, passwordKey, username, password))
  {
    var creds := CredentialAttributes(useWindowsAuth, userKey, passwordKey, username, password);
    if useWindowsAuth {
      assert AttributesText(creds) == AttributeText(creds[0]) + AttributesText([]);
      assert AllReadable(creds[1..]);
    } else {
      PairText(creds[0], creds[1]);
      assert AllReadable(creds[2..]);
      assert AllReadable(creds[1..]);
    }
  }

  /** A SQL Server connection string: the driver prefix, then the
      credentials. */
  lemma SqlServerConnectionAttributes(params: DatabaseConnectionParams, driverPrefix: (seq<char>, seq<char>) -> seq<char>, prefix: seq<Attribute>)
    requires params.dbType == SQLServer
    requires AllReadable(prefix) && driverPrefix(params.server, params.database) == AttributesText(prefix)
    ensures ReadAttributes(BuildOdbcConnectionString(params, driverPrefix))
      == Some(prefix + CredentialAttributes(params.useWindowsAuth, "Uid", "Pwd", params.username, params.password))
  {
    CredentialsBack(prefix, params.useWindowsAuth, "Uid", "Pwd", params.username, params.password);
  }

  // ---------------------------------------------------------------------------
  // SSH tunnels
  // ---------------------------------------------------------------------------

  datatype SshAuthMethod = Password | PublicKey

  /** What the tunnel is asked to open: the SSH server and credentials, and
      the database endpoint the tunnel forwards to. */
  datatype SshTunnelConfig = SshTunnelConfig(
    host: seq<char>, port: int, username: seq<char>, authMethod: SshAuthMethod,
    password: seq<char>, privateKeyPath: seq<char>, keyPassphrase: seq<char>,
    remoteHost: seq<char>, remotePort: int)

  /** `buildSshTunnelConfig`: the SSH fields copied, the key method chosen by
      the `authType` text, and the remote endpoint split from the database
      server with the default port of its kind. */
  function BuildSshTunnelConfig(ssh: SshConnectionParams, server: seq<char>, dbType: DbType): (c: SshTunnelConfig)
    ensures c.authMethod == PublicKey <==> ssh.authType == "privateKey"
    ensures c.host == ssh.host && c.port == ssh.port && c.username == ssh.username
    ensures c.password == ssh.password && c.privateKeyPath == ssh.privateKeyPath && c.keyPassphrase == ssh.keyPassphrase
    ensures 1 <= c.remotePort <= 65535 && c.remoteHost <= server && ',' !in c.remoteHost
    ensures ',' !in server ==> c.remoteHost == server && c.remotePort == DefaultDbPort(dbType)
  {
    var hp := SplitHostPort(server, DefaultDbPort(dbType));
    SshTunnelConfig(ssh.host, ssh.port, ssh.username, if ssh.authType == "privateKey" then PublicKey else Password,
                    ssh.password, ssh.privateKeyPath, ssh.keyPassphrase, hp.host, hp.port)
  }

  /** A server written as `host,port` reaches that host and port through the
      tunnel. */
  lemma TunnelRemoteOfJoined(ssh: SshConnectionParams, host: seq<char>, port: nat, dbType: DbType)
    requires ',' !in host && 1 <= port <= 65535
    ensures var c := BuildSshTunnelConfig(ssh, host + "," + NatToString(port), dbType);
      c.remoteHost == host && c.remotePort == port
  {
    SplitHostPortJoin(host, port, DefaultDbPort(dbType));
  }

  /** `establishSshTunnel`. The tunnel itself is not part of this model: its
      `connect` is given as the error message it reports, if any, and a
      tunnel that connected is represented by its configuration. */
  function EstablishSshTunnel(params: DatabaseConnectionParams, connect: SshTunnelConfig -> Option<seq<char>>): (r: Result<SshTunnelConfig>)
    ensures r.Ok? <==> connect(BuildSshTunnelConfig(params.ssh, params.server, params.dbType)).None?
    ensures r.Ok? ==> r.value == BuildSshTunnelConfig(params.ssh, params.server, params.dbType)
    ensures r.Err? ==> r.error == "SSH tunnel failed: " + connect(BuildSshTunnelConfig(params.ssh, params.server, params.dbType)).value
  {
    var config := BuildSshTunnelConfig(params.ssh, params.server, params.dbType);
    match connect(config)
    case None => Ok(config)
    case Some(message) => Err("SSH tunnel failed: " + message)
  }
}
