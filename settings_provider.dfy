/** `SettingsProvider`: the request handlers over the settings and the
    session. Each handler reads a copy of the stored settings, profile or
    session state, overwrites exactly the fields the request supplies, and
    hands the result back to its manager. The documents the `get` handlers
    send are modelled as the JSON values their text denotes, which gives the
    `save` handlers a partner to round-trip with. */
module SettingsProviders {
  import opened Wrappers
  import opened Strings
  import opened Lists
  import opened Requests
  import opened JsonUtils
  import opened SettingsManagers
  import opened SessionManagers

  const IntMin: int := -0x8000_0000
  const IntMax: int := 0x7FFF_FFFF

  const SavedBody: string := "{\"saved\":true}"
  const DeletedBody: string := "{\"deleted\":true}"
  const MissingId: string := "Missing required field: id"
  const GeneratedPrefix: string := "profile_"

  predicate InIntRange(v: int) { IntMin <= v <= IntMax }

  /** `narrowToInt`: the clamp of a 64-bit integer into the range of `int`. */
  function NarrowToInt(v: int): (r: int)
    ensures InIntRange(r)
    ensures InIntRange(v) ==> r == v
    ensures v < IntMin ==> r == IntMin
    ensures v > IntMax ==> r == IntMax
  {
    if v < IntMin then IntMin else if v > IntMax then IntMax else v
  }

  /** The clamp keeps the order of its arguments and is idempotent. */
  lemma NarrowMonotone(a: int, b: int)
    requires a <= b
    ensures NarrowToInt(a) <= NarrowToInt(b)
    ensures NarrowToInt(NarrowToInt(a)) == NarrowToInt(a)
  {
  }

  /** An integer field of the request, clamped, or the value it keeps. */
  function IntOr(v: Json, key: string, otherwise: int): int {
    match GetInt64(v, key)
    case Some(i) => NarrowToInt(i)
    case None => otherwise
  }

  /** A section of the request; a missing section reads as `null`, on
      which every lookup fails, as on the missing section itself. */
  function Section(doc: Json, key: string): Json {
    match Get(doc, key)
    case Some(v) => v
    case None => JNull
  }

  function ArrayOr(doc: Json, key: string): seq<Json> {
    match GetArray(doc, key)
    case Some(items) => items
    case None => []
  }

  // ---------------------------------------------------------------------
  // updateSettings

  function MergeGeneral(g: GeneralSettings, v: Json): GeneralSettings {
    g.(autoConnect := BoolOr(v, "autoConnect", g.autoConnect),
       confirmOnExit := BoolOr(v, "confirmOnExit", g.confirmOnExit),
       maxQueryHistory := IntOr(v, "maxQueryHistory", g.maxQueryHistory),
       language := StringOr(v, "language", g.language))
  }

  function MergeEditor(e: EditorSettings, v: Json): EditorSettings {
    e.(fontSize := IntOr(v, "fontSize", e.fontSize),
       fontFamily := StringOr(v, "fontFamily", e.fontFamily),
       wordWrap := BoolOr(v, "wordWrap", e.wordWrap),
       tabSize := IntOr(v, "tabSize", e.tabSize),
       theme := StringOr(v, "theme", e.theme))
  }

  function MergeGrid(g: GridSettings, v: Json): GridSettings {
    g.(defaultPageSize := IntOr(v, "defaultPageSize", g.defaultPageSize),
       showRowNumbers := BoolOr(v, "showRowNumbers", g.showRowNumbers),
       nullDisplay := StringOr(v, "nullDisplay", g.nullDisplay))
  }

  function MergeWindow(w: WindowSettings, v: Json): WindowSettings {
    w.(width := IntOr(v, "width", w.width),
       height := IntOr(v, "height", w.height),
       x := IntOr(v, "x", w.x),
       y := IntOr(v, "y", w.y),
       isMaximized := BoolOr(v, "isMaximized", w.isMaximized))
  }

  /** The settings after `updateSettings`: each key the request supplies
      with the right type overwrites its field, everything else is kept. */
  function MergeSettings(s: AppSettings, doc: Json): AppSettings {
    s.(general := MergeGeneral(s.general, Section(doc, "general")),
       editor := MergeEditor(s.editor, Section(doc, "editor")),
       grid := MergeGrid(s.grid, Section(doc, "grid")),
       window := MergeWindow(s.window, Section(doc, "window")))
  }

  /** The fields `updateSettings` never reads keep their values, whatever
      the request holds. */
  lemma MergeKeeps(s: AppSettings, doc: Json)
    ensures var r := MergeSettings(s, doc);
      r.connectionProfiles == s.connectionProfiles
      && r.general.lastConnectionId == s.general.lastConnectionId
      && r.general.maxRecentConnections == s.general.maxRecentConnections
      && r.editor.insertSpaces == s.editor.insertSpaces
      && r.editor.showLineNumbers == s.editor.showLineNumbers
      && r.editor.showMinimap == s.editor.showMinimap
      && r.grid.enableCellEditing == s.grid.enableCellEditing
      && r.grid.dateFormat == s.grid.dateFormat
  {
  }

  /** A request without any of the four sections, or one that does not
      parse, changes nothing. */
  lemma MergeWithoutSections(s: AppSettings, doc: Json)
    requires Get(doc, "general").None? && Get(doc, "editor").None? && Get(doc, "grid").None? && Get(doc, "window").None?
    ensures MergeSettings(s, doc) == s
  {
  }

  /** Applying the same request twice is applying it once. */
  lemma MergeIdempotent(s: AppSettings, doc: Json)
    ensures MergeSettings(MergeSettings(s, doc), doc) == MergeSettings(s, doc)
  {
  }

  /** Every integer field `updateSettings` writes lies in the range of
      `int` whatever the request holds, provided it did before. */
  lemma MergeInRange(s: AppSettings, doc: Json)
    requires InIntRange(s.general.maxQueryHistory) && InIntRange(s.editor.fontSize) && InIntRange(s.editor.tabSize)
    requires InIntRange(s.grid.defaultPageSize)
    requires InIntRange(s.window.width) && InIntRange(s.window.height) && InIntRange(s.window.x) && InIntRange(s.window.y)
    ensures var r := MergeSettings(s, doc);
      InIntRange(r.general.maxQueryHistory) && InIntRange(r.editor.fontSize) && InIntRange(r.editor.tabSize)
      && InIntRange(r.grid.defaultPageSize)
      && InIntRange(r.window.width) && InIntRange(r.window.height) && InIntRange(r.window.x) && InIntRange(r.window.y)
  {
  }

  /** The `general`, `editor` and `grid` objects of the `getSettings`
      response, every field of each. */
  function GeneralDocument(g: GeneralSettings): Json {
    JObject(map["autoConnect" := JBool(g.autoConnect), "lastConnectionId" := JString(g.lastConnectionId),
                "confirmOnExit" := JBool(g.confirmOnExit), "maxQueryHistory" := JInt(g.maxQueryHistory),
                "maxRecentConnections" := JInt(g.maxRecentConnections), "language" := JString(g.language)])
  }

  function EditorDocument(e: EditorSettings): Json {
    JObject(map["fontSize" := JInt(e.fontSize), "fontFamily" := JString(e.fontFamily), "wordWrap" := JBool(e.wordWrap),
                "tabSize" := JInt(e.tabSize), "insertSpaces" := JBool(e.insertSpaces),
                "showLineNumbers" := JBool(e.showLineNumbers), "showMinimap" := JBool(e.showMinimap),
                "theme" := JString(e.theme)])
  }

  function GridDocument(g: GridSettings): Json {
    JObject(map["defaultPageSize" := JInt(g.defaultPageSize), "showRowNumbers" := JBool(g.showRowNumbers),
                "enableCellEditing" := JBool(g.enableCellEditing), "dateFormat" := JString(g.dateFormat),
                "nullDisplay" := JString(g.nullDisplay)])
  }

  /** The document `getSettings` answers with: no window section. */
  function SettingsDocument(s: AppSettings): Json {
    JObject(map["general" := GeneralDocument(s.general), "editor" := EditorDocument(s.editor),
                "grid" := GridDocument(s.grid)])
  }

  lemma GeneralRoundTrip(g: GeneralSettings, t: GeneralSettings)
    requires InIntRange(g.maxQueryHistory)
    ensures MergeGeneral(t, GeneralDocument(g))
         == g.(lastConnectionId := t.lastConnectionId, maxRecentConnections := t.maxRecentConnections)
  {
  }

  lemma EditorRoundTrip(e: EditorSettings, t: EditorSettings)
    requires InIntRange(e.fontSize) && InIntRange(e.tabSize)
    ensures MergeEditor(t, EditorDocument(e))
         == e.(insertSpaces := t.insertSpaces, showLineNumbers := t.showLineNumbers, showMinimap := t.showMinimap)
  {
  }

  lemma GridRoundTrip(g: GridSettings, t: GridSettings)
    requires InIntRange(g.defaultPageSize)
    ensures MergeGrid(t, GridDocument(g)) == g.(enableCellEditing := t.enableCellEditing, dateFormat := t.dateFormat)
  {
  }

  lemma SettingsDocumentSections(s: AppSettings)
    ensures var doc := SettingsDocument(s);
      Section(doc, "general") == GeneralDocument(s.general) && Section(doc, "editor") == EditorDocument(s.editor)
      && Section(doc, "grid") == GridDocument(s.grid) && Section(doc, "window") == JNull
  {
  }

  /** Sending the `getSettings` document back through `updateSettings`
      restores every field the update reads; the fields it does not read
      (the last connection, the recent-connection limit, three editor flags,
      cell editing, the date format), the window and the profiles stay as
      they are in the settings it is applied to. */
  lemma SettingsRoundTrip(s: AppSettings, t: AppSettings)
    requires InIntRange(s.general.maxQueryHistory) && InIntRange(s.editor.fontSize) && InIntRange(s.editor.tabSize)
    requires InIntRange(s.grid.defaultPageSize)
    ensures var r := MergeSettings(t, SettingsDocument(s));
      r.general == s.general.(lastConnectionId := t.general.lastConnectionId,
                              maxRecentConnections := t.general.maxRecentConnections)
      && r.editor == s.editor.(insertSpaces := t.editor.insertSpaces, showLineNumbers := t.editor.showLineNumbers,
                               showMinimap := t.editor.showMinimap)
      && r.grid == s.grid.(enableCellEditing := t.grid.enableCellEditing, dateFormat := t.grid.dateFormat)
      && r.window == t.window
      && r.connectionProfiles == t.connectionProfiles
  {
    SettingsDocumentSections(s);
    GeneralRoundTrip(s.general, t.general);
    EditorRoundTrip(s.editor, t.editor);
    GridRoundTrip(s.grid, t.grid);
  }

  /** `updateSettings`: the merge handed to the manager. */
  method UpdateSettingsOf(m: SettingsManager, request: Result<Json>) returns (response: string)
    modifies m
    ensures m.settings == MergeSettings(old(m.settings), Fields(request))
    ensures response == SuccessResponse(SavedBody)
  {
    var settings := MergeSettings(m.settings, Fields(request));
    m.UpdateSettings(settings);
    response := SuccessResponse(SavedBody);
  }

  // ---------------------------------------------------------------------
  // Profile responses

  datatype SshConfigResponse = SshConfigResponse(
    enabled: bool,
    host: string,
    port: int,
    username: string,
    authType: SshAuthType,
    privateKeyPath: string,
    savePassword: bool)

  datatype ProfileResponse = ProfileResponse(
    id: string,
    name: string,
    server: string,
    port: int,
    database: string,
    username: string,
    useWindowsAuth: bool,
    savePassword: bool,
    isProduction: bool,
    isReadOnly: bool,
    environment: string,
    dbType: string,
    ssh: SshConfigResponse)

  /** `toProfileResponse`: the profile without its encrypted secrets; the
      SSH `savePassword` says whether either SSH secret is stored. */
  function ToProfileResponse(p: ConnectionProfile): (r: ProfileResponse)
    ensures r.ssh.savePassword <==> Stored(p, SshPassword) != [] || Stored(p, KeyPassphrase) != []
    ensures r.id == p.id && r.savePassword == p.savePassword && r.ssh.host == p.ssh.host
  {
    ProfileResponse(p.id, p.name, p.server, p.port, p.database, p.username, p.useWindowsAuth, p.savePassword,
                    p.isProduction, p.isReadOnly, p.environment, p.dbType,
                    SshConfigResponse(p.ssh.enabled, p.ssh.host, p.ssh.port, p.ssh.username, p.ssh.authType,
                                      p.ssh.privateKeyPath,
                                      p.ssh.encryptedPassword != [] || p.ssh.encryptedKeyPassphrase != []))
  }

  /** The response does not depend on the cipher texts: profiles that
      differ only in their secrets, with the same SSH secrets present, answer
      alike. */
  lemma ResponseOmitsSecrets(p: ConnectionProfile, password: string, sshPassword: string, passphrase: string)
    requires (sshPassword != [] || passphrase != []) <==> (p.ssh.encryptedPassword != [] || p.ssh.encryptedKeyPassphrase != [])
    ensures ToProfileResponse(p) == ToProfileResponse(p.(encryptedPassword := password,
      ssh := p.ssh.(encryptedPassword := sshPassword, encryptedKeyPassphrase := passphrase)))
  {
  }

  function AuthTypeName(a: SshAuthType): string {
    match a
    case Password => "password"
    case PrivateKey => "privateKey"
  }

  function SshDocument(r: SshConfigResponse): Json {
    JObject(map["enabled" := JBool(r.enabled), "host" := JString(r.host), "port" := JInt(r.port),
                "username" := JString(r.username), "authType" := JString(AuthTypeName(r.authType)),
                "privateKeyPath" := JString(r.privateKeyPath), "savePassword" := JBool(r.savePassword)])
  }

  /** One element of the `profiles` array of `getConnectionProfiles`. */
  function ProfileDocument(r: ProfileResponse): Json {
    JObject(map["id" := JString(r.id), "name" := JString(r.name), "server" := JString(r.server),
                "port" := JInt(r.port), "database" := JString(r.database), "username" := JString(r.username),
                "useWindowsAuth" := JBool(r.useWindowsAuth), "savePassword" := JBool(r.savePassword),
                "isProduction" := JBool(r.isProduction), "isReadOnly" := JBool(r.isReadOnly),
                "environment" := JString(r.environment), "dbType" := JString(r.dbType),
                "ssh" := SshDocument(r.ssh)])
  }

  // ---------------------------------------------------------------------
  // saveConnectionProfile

  function AuthTypeOr(v: Json, otherwise: SshAuthType): SshAuthType {
    match GetString(v, "authType")
    case Some(a) => if a == "privateKey" then PrivateKey else Password
    case None => otherwise
  }

  function SshFrom(s: SshConfig, v: Json): SshConfig {
    s.(enabled := BoolOr(v, "enabled", s.enabled),
       host := StringOr(v, "host", s.host),
       port := IntOr(v, "port", s.port),
       username := StringOr(v, "username", s.username),
       authType := AuthTypeOr(v, s.authType),
       privateKeyPath := StringOr(v, "privateKeyPath", s.privateKeyPath))
  }

  /** The profile the request describes, over the default profile `blank`. */
  function ProfileFrom(doc: Json, blank: ConnectionProfile): ConnectionProfile {
    blank.(id := StringOr(doc, "id", blank.id),
           name := StringOr(doc, "name", blank.name),
           server := StringOr(doc, "server", blank.server),
           port := IntOr(doc, "port", blank.port),
           database := StringOr(doc, "database", blank.database),
           username := StringOr(doc, "username", blank.username),
           useWindowsAuth := BoolOr(doc, "useWindowsAuth", blank.useWindowsAuth),
           savePassword := BoolOr(doc, "savePassword", blank.savePassword),
           isProduction := BoolOr(doc, "isProduction", blank.isProduction),
           isReadOnly := BoolOr(doc, "isReadOnly", blank.isReadOnly),
           environment := StringOr(doc, "environment", blank.environment),
           dbType := StringOr(doc, "dbType", blank.dbType),
           ssh := SshFrom(blank.ssh, Section(doc, "ssh")))
  }

  /** The profile saved, with `profile_<ticks>` as its id when the request
      leaves it empty; `ticks` is the clock reading of the save. */
  function Built(doc: Json, blank: ConnectionProfile, ticks: nat): (p: ConnectionProfile)
    ensures p.id != []
  {
    var p := ProfileFrom(doc, blank);
    if p.id == [] then p.(id := GeneratedPrefix + NatToString(ticks)) else p
  }

  /** Update when the id is known, add otherwise. */
  function Upsert(profiles: seq<ConnectionProfile>, p: ConnectionProfile): seq<ConnectionProfile> {
    if Lookup(profiles, p.id).Some? then ReplaceFirst(profiles, HasId(p.id), p) else profiles + [p]
  }

  lemma UpsertLookup(profiles: seq<ConnectionProfile>, p: ConnectionProfile)
    ensures Lookup(Upsert(profiles, p), p.id) == Some(p)
    ensures forall id :: id != p.id ==> Lookup(Upsert(profiles, p), id) == Lookup(profiles, id)
    ensures |Upsert(profiles, p)| == |profiles| + (if Lookup(profiles, p.id).Some? then 0 else 1)
  {
    if Lookup(profiles, p.id).Some? {
      var i := FindFirst(profiles, HasId(p.id)).value;
      assert ReplaceFirst(profiles, HasId(p.id), p) == profiles[i := p];
      LookupAfterWrite(profiles, i, p);
    } else {
      LookupAfterAdd(profiles, p);
    }
  }

  /** A setter whose result is ignored: on an error the profiles stay. */
  function TrySet(profiles: seq<ConnectionProfile>, id: string, which: Secret, plain: string,
                  encrypt: string -> Result<string>): seq<ConnectionProfile>
  {
    match SetSecret(profiles, id, which, plain, encrypt)
    case Ok(after) => after
    case Err(_) => profiles
  }

  /** A setter called only with a supplied, non-empty value. */
  function SetGiven(profiles: seq<ConnectionProfile>, id: string, which: Secret, given: Option<string>,
                    encrypt: string -> Result<string>): seq<ConnectionProfile>
  {
    match given
    case Some(plain) => if plain != [] then TrySet(profiles, id, which, plain, encrypt) else profiles
    case None => profiles
  }

  /** The database password: stored when saving is asked for and a
      password is supplied, cleared when saving is not asked for. */
  function PasswordStep(profiles: seq<ConnectionProfile>, p: ConnectionProfile, doc: Json,
                        encrypt: string -> Result<string>): seq<ConnectionProfile>
  {
    if p.savePassword then SetGiven(profiles, p.id, ProfilePassword, GetString(doc, "password"), encrypt)
    else TrySet(profiles, p.id, ProfilePassword, [], encrypt)
  }

  /** The SSH secrets, only when the request has an `ssh` section: stored
      when its `savePassword` is true and they are supplied, both cleared
      otherwise. */
  function SshStep(profiles: seq<ConnectionProfile>, id: string, doc: Json,
                   encrypt: string -> Result<string>): seq<ConnectionProfile>
  {
    match Get(doc, "ssh")
    case None => profiles
    case Some(ssh) =>
      if GetBool(ssh, "savePassword") == Some(true) then
        SetGiven(SetGiven(profiles, id, SshPassword, GetString(ssh, "password"), encrypt),
                 id, KeyPassphrase, GetString(ssh, "keyPassphrase"), encrypt)
      else
        TrySet(TrySet(profiles, id, SshPassword, [], encrypt), id, KeyPassphrase, [], encrypt)
  }

  /** The profile list after `saveConnectionProfile`. */
  function SavedProfiles(profiles: seq<ConnectionProfile>, doc: Json, blank: ConnectionProfile, ticks: nat,
                         encrypt: string -> Result<string>): seq<ConnectionProfile>
  {
    var p := Built(doc, blank, ticks);
    SshStep(PasswordStep(Upsert(profiles, p), p, doc, encrypt), p.id, doc, encrypt)
  }

  /** What one setter does to the profile it finds. */
  function Applied(p: ConnectionProfile, which: Secret, plain: string, encrypt: string -> Result<string>)
    : ConnectionProfile
  {
    if plain == [] then WithSecret(p, which, [], false)
    else
      match encrypt(plain)
      case Ok(cipher) => WithSecret(p, which, cipher, true)
      case Err(_) => p
  }

  function AppliedGiven(p: ConnectionProfile, which: Secret, given: Option<string>,
                        encrypt: string -> Result<string>): ConnectionProfile
  {
    match given
    case Some(plain) => if plain != [] then Applied(p, which, plain, encrypt) else p
    case None => p
  }

  /** The saved profile after the password setter. */
  function PasswordRecord(p: ConnectionProfile, doc: Json, encrypt: string -> Result<string>): ConnectionProfile {
    if p.savePassword then AppliedGiven(p, ProfilePassword, GetString(doc, "password"), encrypt)
    else Applied(p, ProfilePassword, [], encrypt)
  }

  /** The saved profile after the SSH setters. */
  function SshRecord(q: ConnectionProfile, doc: Json, encrypt: string -> Result<string>): ConnectionProfile {
    match Get(doc, "ssh")
    case None => q
    case Some(ssh) =>
      if GetBool(ssh, "savePassword") == Some(true) then
        AppliedGiven(AppliedGiven(q, SshPassword, GetString(ssh, "password"), encrypt),
                     KeyPassphrase, GetString(ssh, "keyPassphrase"), encrypt)
      else
        Applied(Applied(q, SshPassword, [], encrypt), KeyPassphrase, [], encrypt)
  }

  /** The saved profile as a lookup of its id finds it afterwards. */
  function SavedRecord(p: ConnectionProfile, doc: Json, encrypt: string -> Result<string>): ConnectionProfile {
    SshRecord(PasswordRecord(p, doc, encrypt), doc, encrypt)
  }

  lemma TrySetLookup(profiles: seq<ConnectionProfile>, id: string, which: Secret, plain: string,
                     encrypt: string -> Result<string>)
    requires Lookup(profiles, id).Some?
    ensures Lookup(TrySet(profiles, id, which, plain, encrypt), id)
         == Some(Applied(Lookup(profiles, id).value, which, plain, encrypt))
    ensures forall other :: other != id ==> Lookup(TrySet(profiles, id, which, plain, encrypt), other) == Lookup(profiles, other)
  {
    var i := FindFirst(profiles, HasId(id)).value;
    var q := Applied(profiles[i], which, plain, encrypt);
    if SetSecret(profiles, id, which, plain, encrypt).Ok? {
      assert TrySet(profiles, id, which, plain, encrypt) == profiles[i := q];
      LookupAfterWrite(profiles, i, q);
    }
  }

  lemma SetGivenLookup(profiles: seq<ConnectionProfile>, id: string, which: Secret, given: Option<string>,
                       encrypt: string -> Result<string>)
    requires Lookup(profiles, id).Some?
    ensures Lookup(SetGiven(profiles, id, which, given, encrypt), id)
         == Some(AppliedGiven(Lookup(profiles, id).value, which, given, encrypt))
    ensures forall other :: other != id ==> Lookup(SetGiven(profiles, id, which, given, encrypt), other) == Lookup(profiles, other)
  {
    if given.Some? && given.value != [] {
      TrySetLookup(profiles, id, which, given.value, encrypt);
    }
  }

  lemma PasswordStepLookup(profiles: seq<ConnectionProfile>, p: ConnectionProfile, doc: Json,
                           encrypt: string -> Result<string>)
    requires Lookup(profiles, p.id) == Some(p)
    ensures Lookup(PasswordStep(profiles, p, doc, encrypt), p.id) == Some(PasswordRecord(p, doc, encrypt))
    ensures forall other :: other != p.id ==> Lookup(PasswordStep(profiles, p, doc, encrypt), other) == Lookup(profiles, other)
  {
    if p.savePassword {
      SetGivenLookup(profiles, p.id, ProfilePassword, GetString(doc, "password"), encrypt);
    } else {
      TrySetLookup(profiles, p.id, ProfilePassword, [], encrypt);
    }
  }

  lemma SshStepLookup(profiles: seq<ConnectionProfile>, q: ConnectionProfile, doc: Json,
                      encrypt: string -> Result<string>)
    requires Lookup(profiles, q.id) == Some(q)
    ensures Lookup(SshStep(profiles, q.id, doc, encrypt), q.id) == Some(SshRecord(q, doc, encrypt))
    ensures forall other :: other != q.id ==> Lookup(SshStep(profiles, q.id, doc, encrypt), other) == Lookup(profiles, other)
  {
    var id := q.id;
    match Get(doc, "ssh")
    case None =>
    case Some(ssh) =>
      if GetBool(ssh, "savePassword") == Some(true) {
        var first := SetGiven(profiles, id, SshPassword, GetString(ssh, "password"), encrypt);
        SetGivenLookup(profiles, id, SshPassword, GetString(ssh, "password"), encrypt);
        SetGivenLookup(first, id, KeyPassphrase, GetString(ssh, "keyPassphrase"), encrypt);
      } else {
        var first := TrySet(profiles, id, SshPassword, [], encrypt);
        TrySetLookup(profiles, id, SshPassword, [], encrypt);
        TrySetLookup(first, id, KeyPassphrase, [], encrypt);
      }
  }

  /** After `saveConnectionProfile`, a lookup of the saved id finds the
      saved profile, and a lookup of any other id finds what it found
      before: the save touches one profile only. */
  lemma SavedProfileLookup(profiles: seq<ConnectionProfile>, doc: Json, blank: ConnectionProfile, ticks: nat,
                           encrypt: string -> Result<string>)
    ensures var p := Built(doc, blank, ticks);
      Lookup(SavedProfiles(profiles, doc, blank, ticks, encrypt), p.id) == Some(SavedRecord(p, doc, encrypt))
    ensures var p := Built(doc, blank, ticks);
      forall id :: id != p.id ==> Lookup(SavedProfiles(profiles, doc, blank, ticks, encrypt), id) == Lookup(profiles, id)
  {
    var p := Built(doc, blank, ticks);
    var upserted := Upsert(profiles, p);
    UpsertLookup(profiles, p);
    PasswordStepLookup(upserted, p, doc, encrypt);
    var passworded := PasswordStep(upserted, p, doc, encrypt);
    var q := Lookup(passworded, p.id).value;
    SshStepLookup(passworded, q, doc, encrypt);
  }

  /** Two profiles alike in everything but their three secrets. */
  predicate SameButSecrets(a: ConnectionProfile, b: ConnectionProfile) {
    && a.id == b.id && a.name == b.name && a.server == b.server && a.port == b.port
    && a.database == b.database && a.username == b.username && a.useWindowsAuth == b.useWindowsAuth
    && a.savePassword == b.savePassword && a.isProduction == b.isProduction && a.isReadOnly == b.isReadOnly
    && a.environment == b.environment && a.dbType == b.dbType
    && a.ssh.enabled == b.ssh.enabled && a.ssh.host == b.ssh.host && a.ssh.port == b.ssh.port
    && a.ssh.username == b.ssh.username && a.ssh.authType == b.ssh.authType
    && a.ssh.privateKeyPath == b.ssh.privateKeyPath
  }

  /** A setter changes only secrets, and `savePassword` only when the
      database password goes from stored to cleared or back. */
  lemma AppliedKeeps(p: ConnectionProfile, which: Secret, plain: string, encrypt: string -> Result<string>)
    requires which == ProfilePassword ==> (plain != [] <==> p.savePassword)
    ensures SameButSecrets(Applied(p, which, plain, encrypt), p)
  {
    if plain != [] && encrypt(plain).Ok? {
      assert Applied(p, which, plain, encrypt) == WithSecret(p, which, encrypt(plain).value, true);
    }
  }

  lemma PasswordRecordKeeps(p: ConnectionProfile, doc: Json, encrypt: string -> Result<string>)
    ensures SameButSecrets(PasswordRecord(p, doc, encrypt), p)
    ensures !p.savePassword ==> PasswordRecord(p, doc, encrypt).encryptedPassword == []
    ensures p.savePassword && GetString(doc, "password").None? ==> PasswordRecord(p, doc, encrypt) == p
    ensures Stored(PasswordRecord(p, doc, encrypt), SshPassword) == Stored(p, SshPassword)
    ensures Stored(PasswordRecord(p, doc, encrypt), KeyPassphrase) == Stored(p, KeyPassphrase)
  {
    var password := GetString(doc, "password");
    if p.savePassword {
      if password.Some? && password.value != [] {
        AppliedKeeps(p, ProfilePassword, password.value, encrypt);
      }
    } else {
      AppliedKeeps(p, ProfilePassword, [], encrypt);
    }
  }

  lemma SshSavedKeeps(q: ConnectionProfile, ssh: Json, encrypt: string -> Result<string>)
    ensures var r := AppliedGiven(AppliedGiven(q, SshPassword, GetString(ssh, "password"), encrypt),
                                  KeyPassphrase, GetString(ssh, "keyPassphrase"), encrypt);
      SameButSecrets(r, q) && r.encryptedPassword == q.encryptedPassword
  {
    var sshPassword := GetString(ssh, "password");
    var passphrase := GetString(ssh, "keyPassphrase");
    var q1 := AppliedGiven(q, SshPassword, sshPassword, encrypt);
    if sshPassword.Some? && sshPassword.value != [] {
      AppliedKeeps(q, SshPassword, sshPassword.value, encrypt);
    }
    assert SameButSecrets(q1, q) && q1.encryptedPassword == q.encryptedPassword;
    if passphrase.Some? && passphrase.value != [] {
      AppliedKeeps(q1, KeyPassphrase, passphrase.value, encrypt);
    }
  }

  lemma SshClearedKeeps(q: ConnectionProfile, encrypt: string -> Result<string>)
    ensures var r := Applied(Applied(q, SshPassword, [], encrypt), KeyPassphrase, [], encrypt);
      SameButSecrets(r, q) && r.encryptedPassword == q.encryptedPassword
  {
    var q1 := Applied(q, SshPassword, [], encrypt);
    AppliedKeeps(q, SshPassword, [], encrypt);
    AppliedKeeps(q1, KeyPassphrase, [], encrypt);
  }

  lemma SshRecordKeeps(q: ConnectionProfile, doc: Json, encrypt: string -> Result<string>)
    ensures SameButSecrets(SshRecord(q, doc, encrypt), q)
    ensures SshRecord(q, doc, encrypt).encryptedPassword == q.encryptedPassword
    ensures Get(doc, "ssh").None? ==> SshRecord(q, doc, encrypt) == q
  {
    match Get(doc, "ssh")
    case None =>
    case Some(ssh) =>
      if GetBool(ssh, "savePassword") == Some(true) {
        SshSavedKeeps(q, ssh, encrypt);
      } else {
        SshClearedKeeps(q, encrypt);
      }
  }

  lemma SshRecordClears(q: ConnectionProfile, doc: Json, encrypt: string -> Result<string>)
    requires Get(doc, "ssh").Some? && GetBool(Get(doc, "ssh").value, "savePassword") != Some(true)
    ensures Stored(SshRecord(q, doc, encrypt), SshPassword) == [] && Stored(SshRecord(q, doc, encrypt), KeyPassphrase) == []
  {
  }

  /** The secrets of a saved profile, and nothing else, may differ from
      the profile the request describes: without `savePassword` the
      password is cleared (and `savePassword` stays false); an `ssh`
      section without a true `savePassword` clears both SSH secrets; a
      secret the request does not supply keeps the value of the profile the
      request describes. */
  lemma SavedRecordSecrets(p: ConnectionProfile, doc: Json, encrypt: string -> Result<string>)
    ensures var r := SavedRecord(p, doc, encrypt);
      SameButSecrets(r, p)
      && (!p.savePassword ==> r.encryptedPassword == [] && !r.savePassword)
      && (Get(doc, "ssh").Some? && GetBool(Get(doc, "ssh").value, "savePassword") != Some(true)
          ==> r.ssh.encryptedPassword == [] && r.ssh.encryptedKeyPassphrase == [])
      && (p.savePassword && GetString(doc, "password").None? ==> r.encryptedPassword == p.encryptedPassword)
      && (Get(doc, "ssh").None? ==> r.ssh.encryptedPassword == p.ssh.encryptedPassword
                                    && r.ssh.encryptedKeyPassphrase == p.ssh.encryptedKeyPassphrase)
  {
    var q := PasswordRecord(p, doc, encrypt);
    PasswordRecordKeeps(p, doc, encrypt);
    SshRecordKeeps(q, doc, encrypt);
    if Get(doc, "ssh").Some? && GetBool(Get(doc, "ssh").value, "savePassword") != Some(true) {
      SshRecordClears(q, doc, encrypt);
    }
  }

  /** The saved profile's secrets come from the request and the defaults
      alone: a secret the request does not supply is the default one,
      whatever the profile stored before under the same id. */
  lemma SavedSecrets(profiles: seq<ConnectionProfile>, doc: Json, blank: ConnectionProfile, ticks: nat,
                     encrypt: string -> Result<string>)
    ensures var p := Built(doc, blank, ticks);
      Lookup(SavedProfiles(profiles, doc, blank, ticks, encrypt), p.id).Some?
    ensures var p := Built(doc, blank, ticks);
      var r := Lookup(SavedProfiles(profiles, doc, blank, ticks, encrypt), p.id).value;
      (p.savePassword && GetString(doc, "password").None? ==> r.encryptedPassword == blank.encryptedPassword)
      && (Get(doc, "ssh").None? ==> r.ssh.encryptedPassword == blank.ssh.encryptedPassword
                                    && r.ssh.encryptedKeyPassphrase == blank.ssh.encryptedKeyPassphrase)
  {
    var p := Built(doc, blank, ticks);
    assert p.encryptedPassword == blank.encryptedPassword;
    assert p.ssh.encryptedPassword == blank.ssh.encryptedPassword;
    assert p.ssh.encryptedKeyPassphrase == blank.ssh.encryptedKeyPassphrase;
    SavedProfileLookup(profiles, doc, blank, ticks, encrypt);
    SavedRecordSecrets(p, doc, encrypt);
  }

  /** A default-constructed profile holds no secret, so a secret the request
      does not supply is saved empty. */
  lemma SavedSecretsEmpty(profiles: seq<ConnectionProfile>, doc: Json, blank: ConnectionProfile, ticks: nat,
                          encrypt: string -> Result<string>)
    requires blank.encryptedPassword == [] && blank.ssh.encryptedPassword == [] && blank.ssh.encryptedKeyPassphrase == []
    ensures var p := Built(doc, blank, ticks);
      Lookup(SavedProfiles(profiles, doc, blank, ticks, encrypt), p.id).Some?
    ensures var p := Built(doc, blank, ticks);
      var r := Lookup(SavedProfiles(profiles, doc, blank, ticks, encrypt), p.id).value;
      (p.savePassword && GetString(doc, "password").None? ==> r.encryptedPassword == [])
      && (Get(doc, "ssh").None? ==> r.ssh.encryptedPassword == [] && r.ssh.encryptedKeyPassphrase == [])
  {
    SavedSecrets(profiles, doc, blank, ticks, encrypt);
  }

  /** The saved profile does not depend on the profile list it is saved
      into: an update replaces the stored profile, secrets included. */
  lemma SavedIgnoresOld(before: seq<ConnectionProfile>, other: seq<ConnectionProfile>, doc: Json,
                        blank: ConnectionProfile, ticks: nat, encrypt: string -> Result<string>)
    ensures var id := Built(doc, blank, ticks).id;
      Lookup(SavedProfiles(before, doc, blank, ticks, encrypt), id)
      == Lookup(SavedProfiles(other, doc, blank, ticks, encrypt), id)
  {
    SavedProfileLookup(before, doc, blank, ticks, encrypt);
    SavedProfileLookup(other, doc, blank, ticks, encrypt);
  }

  /** A password saved with the profile reads back through the decryption
      of its encryption. */
  lemma SavedPasswordReadsBack(profiles: seq<ConnectionProfile>, doc: Json, blank: ConnectionProfile, ticks: nat,
                               encrypt: string -> Result<string>, decrypt: string -> Result<string>, password: string)
    requires Built(doc, blank, ticks).savePassword && GetString(doc, "password") == Some(password) && password != []
    requires encrypt(password).Ok? && encrypt(password).value != [] && decrypt(encrypt(password).value) == Ok(password)
    ensures GetSecret(SavedProfiles(profiles, doc, blank, ticks, encrypt), Built(doc, blank, ticks).id, ProfilePassword, decrypt)
         == Ok(password)
  {
    var p := Built(doc, blank, ticks);
    SavedProfileLookup(profiles, doc, blank, ticks, encrypt);
    var q := PasswordRecord(p, doc, encrypt);
    assert q == Applied(p, ProfilePassword, password, encrypt);
    assert q.encryptedPassword == encrypt(password).value;
    SshRecordKeeps(q, doc, encrypt);
  }

  lemma SshRoundTrip(s: SshConfig, blank: SshConfig)
    requires InIntRange(s.port)
    ensures SshFrom(blank, SshDocument(SshConfigResponse(s.enabled, s.host, s.port, s.username, s.authType,
                                                         s.privateKeyPath, s.encryptedPassword != [] || s.encryptedKeyPassphrase != [])))
         == s.(encryptedPassword := blank.encryptedPassword, encryptedKeyPassphrase := blank.encryptedKeyPassphrase)
  {
    var v := SshDocument(SshConfigResponse(s.enabled, s.host, s.port, s.username, s.authType,
                                           s.privateKeyPath, s.encryptedPassword != [] || s.encryptedKeyPassphrase != []));
    assert GetString(v, "authType") == Some(AuthTypeName(s.authType));
    assert GetInt64(v, "port") == Some(s.port);
  }

  lemma ProfileDocumentNames(r: ProfileResponse)
    ensures var doc := ProfileDocument(r);
      GetString(doc, "id") == Some(r.id) && GetString(doc, "name") == Some(r.name)
      && GetString(doc, "server") == Some(r.server) && GetString(doc, "database") == Some(r.database)
  {
    var doc := ProfileDocument(r);
    assert GetString(doc, "id") == Some(r.id);
    assert GetString(doc, "name") == Some(r.name);
    assert GetString(doc, "server") == Some(r.server);
    assert GetString(doc, "database") == Some(r.database);
  }

  lemma ProfileDocumentText(r: ProfileResponse)
    ensures var doc := ProfileDocument(r);
      GetString(doc, "username") == Some(r.username) && GetString(doc, "environment") == Some(r.environment)
      && GetString(doc, "dbType") == Some(r.dbType)
  {
    var doc := ProfileDocument(r);
    assert GetString(doc, "username") == Some(r.username);
    assert GetString(doc, "environment") == Some(r.environment);
    assert GetString(doc, "dbType") == Some(r.dbType);
  }

  lemma ProfileDocumentValues(r: ProfileResponse)
    requires InIntRange(r.port)
    ensures var doc := ProfileDocument(r);
      GetInt64(doc, "port") == Some(r.port)
      && GetBool(doc, "useWindowsAuth") == Some(r.useWindowsAuth) && GetBool(doc, "savePassword") == Some(r.savePassword)
      && GetBool(doc, "isProduction") == Some(r.isProduction) && GetBool(doc, "isReadOnly") == Some(r.isReadOnly)
  {
    var doc := ProfileDocument(r);
    assert GetInt64(doc, "port") == Some(r.port);
    assert GetBool(doc, "useWindowsAuth") == Some(r.useWindowsAuth);
    assert GetBool(doc, "savePassword") == Some(r.savePassword);
    assert GetBool(doc, "isProduction") == Some(r.isProduction);
    assert GetBool(doc, "isReadOnly") == Some(r.isReadOnly);
  }

  /** Sending a profile of `getConnectionProfiles` back through
      `saveConnectionProfile` describes the same profile, except for the
      secrets, which the response does not carry: they are the defaults. */
  lemma ProfileRoundTrip(p: ConnectionProfile, blank: ConnectionProfile, ticks: nat)
    requires p.id != [] && InIntRange(p.port) && InIntRange(p.ssh.port)
    ensures Built(ProfileDocument(ToProfileResponse(p)), blank, ticks)
         == p.(encryptedPassword := blank.encryptedPassword,
               ssh := p.ssh.(encryptedPassword := blank.ssh.encryptedPassword,
                             encryptedKeyPassphrase := blank.ssh.encryptedKeyPassphrase))
  {
    var r := ToProfileResponse(p);
    var doc := ProfileDocument(r);
    assert Section(doc, "ssh") == SshDocument(r.ssh);
    SshRoundTrip(p.ssh, blank.ssh);
    ProfileDocumentNames(r);
    ProfileDocumentText(r);
    ProfileDocumentValues(r);
  }

  function IdBody(id: string): string {
    "{\"id\":\"" + Escape(id) + "\"}"
  }

  /** The password setter as `saveConnectionProfile` calls it. */
  method StorePassword(m: SettingsManager, profile: ConnectionProfile, doc: Json, encrypt: string -> Result<string>)
    modifies m
    ensures m.settings == old(m.settings).(connectionProfiles :=
      PasswordStep(old(m.settings.connectionProfiles), profile, doc, encrypt))
  {
    var ignored: Option<string>;
    if profile.savePassword {
      var password := GetString(doc, "password");
      if password.Some? && password.value != [] {
        ignored := m.SetProfilePassword(profile.id, password.value, encrypt);
      }
    } else {
      ignored := m.SetProfilePassword(profile.id, [], encrypt);
    }
  }

  /** The SSH setters as `saveConnectionProfile` calls them. */
  method StoreSshSecrets(m: SettingsManager, id: string, doc: Json, encrypt: string -> Result<string>)
    modifies m
    ensures m.settings == old(m.settings).(connectionProfiles :=
      SshStep(old(m.settings.connectionProfiles), id, doc, encrypt))
  {
    var ignored: Option<string>;
    var ssh := Get(doc, "ssh");
    if ssh.Some? {
      if GetBool(ssh.value, "savePassword") == Some(true) {
        var sshPassword := GetString(ssh.value, "password");
        if sshPassword.Some? && sshPassword.value != [] {
          ignored := m.SetSshPassword(id, sshPassword.value, encrypt);
        }
        var passphrase := GetString(ssh.value, "keyPassphrase");
        if passphrase.Some? && passphrase.value != [] {
          ignored := m.SetSshKeyPassphrase(id, passphrase.value, encrypt);
        }
      } else {
        ignored := m.SetSshPassword(id, [], encrypt);
        ignored := m.SetSshKeyPassphrase(id, [], encrypt);
      }
    }
  }

  /** `saveConnectionProfile`: the upsert, then the secret setters in the
      order of the handler, their errors ignored. */
  method SaveProfileTo(m: SettingsManager, request: Result<Json>, blank: ConnectionProfile, ticks: nat,
                       encrypt: string -> Result<string>) returns (response: string)
    modifies m
    ensures m.settings == old(m.settings).(connectionProfiles :=
      SavedProfiles(old(m.settings.connectionProfiles), Fields(request), blank, ticks, encrypt))
    ensures response == SuccessResponse(IdBody(Built(Fields(request), blank, ticks).id))
  {
    var doc := Fields(request);
    var profile := Built(doc, blank, ticks);
    if m.GetConnectionProfile(profile.id).Some? {
      m.UpdateConnectionProfile(profile);
    } else {
      m.AddConnectionProfile(profile);
    }
    StorePassword(m, profile, doc, encrypt);
    StoreSshSecrets(m, profile.id, doc, encrypt);
    var escaped := EscapeString(profile.id);
    response := SuccessResponse("{\"id\":\"" + escaped + "\"}");
  }

  /** `deleteConnectionProfile`: the id is required; removing an unknown id
      succeeds and changes nothing. */
  method DeleteProfileFrom(m: SettingsManager, request: Result<Json>) returns (response: string)
    modifies m
    ensures GetString(Fields(request), "id").None? ==> response == ErrorResponse(MissingId) && m.settings == old(m.settings)
    ensures GetString(Fields(request), "id").Some? ==>
      var id := GetString(Fields(request), "id").value;
      response == SuccessResponse(DeletedBody)
      && m.settings == old(m.settings).(connectionProfiles := RemoveAll(old(m.settings.connectionProfiles), HasId(id)))
      && Lookup(m.settings.connectionProfiles, id).None?
  {
    var id := GetString(Fields(request), "id");
    if id.None? {
      return ErrorResponse(MissingId);
    }
    m.RemoveConnectionProfile(id.value);
    response := SuccessResponse(DeletedBody);
  }

  /** Removing an id that no profile has leaves the list as it was. */
  lemma DeleteUnknown(profiles: seq<ConnectionProfile>, id: string)
    requires Lookup(profiles, id).None?
    ensures RemoveAll(profiles, HasId(id)) == profiles
  {
    RemoveAllAbsent(profiles, HasId(id));
  }

  function SecretKey(which: Secret): string {
    if which == KeyPassphrase then "passphrase" else "password"
  }

  /** `getProfilePassword`, `getSshPassword`, `getSshKeyPassphrase`: the
      id is required, the reading's error is passed on. */
  function SecretResponse(profiles: seq<ConnectionProfile>, request: Result<Json>, which: Secret,
                          decrypt: string -> Result<string>): string
  {
    match GetString(Fields(request), "id")
    case None => ErrorResponse(MissingId)
    case Some(id) =>
      match GetSecret(profiles, id, which, decrypt)
      case Err(e) => ErrorResponse(e)
      case Ok(plain) => SuccessResponse("{\"" + SecretKey(which) + "\":\"" + Escape(plain) + "\"}")
  }

  /** A secret set on a profile is answered back by its getter. */
  lemma SecretResponseAfterSet(profiles: seq<ConnectionProfile>, request: Result<Json>, which: Secret, plain: string,
                               encrypt: string -> Result<string>, decrypt: string -> Result<string>)
    requires GetString(Fields(request), "id").Some?
    requires SetSecret(profiles, GetString(Fields(request), "id").value, which, plain, encrypt).Ok?
    requires plain != [] ==> encrypt(plain).Ok? && encrypt(plain).value != [] && decrypt(encrypt(plain).value) == Ok(plain)
    ensures SecretResponse(SetSecret(profiles, GetString(Fields(request), "id").value, which, plain, encrypt).value,
                           request, which, decrypt)
         == SuccessResponse("{\"" + SecretKey(which) + "\":\"" + Escape(plain) + "\"}")
  {
    SecretRoundTrip(profiles, GetString(Fields(request), "id").value, which, plain, encrypt, decrypt);
  }

  /** An unknown id is answered with the error of the manager. */
  lemma SecretResponseUnknown(profiles: seq<ConnectionProfile>, request: Result<Json>, which: Secret,
                              decrypt: string -> Result<string>)
    requires GetString(Fields(request), "id").Some?
    requires Lookup(profiles, GetString(Fields(request), "id").value).None?
    ensures SecretResponse(profiles, request, which, decrypt)
         == ErrorResponse("Profile not found: " + GetString(Fields(request), "id").value)
  {
  }

  // ---------------------------------------------------------------------
  // saveSessionState

  /** One element of `openTabs`, over the default tab `blank`. */
  function TabFrom(v: Json, blank: EditorTab): EditorTab {
    blank.(id := StringOr(v, "id", blank.id),
           title := StringOr(v, "title", blank.title),
           content := StringOr(v, "content", blank.content),
           filePath := StringOr(v, "filePath", blank.filePath),
           isDirty := BoolOr(v, "isDirty", blank.isDirty),
           cursorLine := IntOr(v, "cursorLine", blank.cursorLine),
           cursorColumn := IntOr(v, "cursorColumn", blank.cursorColumn))
  }

  function TabReader(blank: EditorTab): Json -> EditorTab {
    (v: Json) => TabFrom(v, blank)
  }

  /** The string elements of `expandedTreeNodes`, in order; any other
      element is skipped. */
  function StringNodes(items: seq<Json>): (r: seq<string>)
    ensures |r| <= |items|
    ensures forall n :: n in r <==> JString(n) in items
  {
    if items == [] then []
    else
      var init := items[..|items| - 1];
      assert forall j :: j in items <==> j in init || j == items[|items| - 1] by {
        assert items == init + [items[|items| - 1]];
      }
      StringNodes(init) + (match items[|items| - 1] case JString(s) => [s] case _ => [])
  }

  /** The scalar fields of the session the request supplies. */
  function SessionScalars(s: SessionState, doc: Json): SessionState {
    s.(activeConnectionId := StringOr(doc, "activeConnectionId", s.activeConnectionId),
       activeTabId := StringOr(doc, "activeTabId", s.activeTabId),
       windowX := IntOr(doc, "windowX", s.windowX),
       windowY := IntOr(doc, "windowY", s.windowY),
       windowWidth := IntOr(doc, "windowWidth", s.windowWidth),
       windowHeight := IntOr(doc, "windowHeight", s.windowHeight),
       isMaximized := BoolOr(doc, "isMaximized", s.isMaximized),
       leftPanelWidth := IntOr(doc, "leftPanelWidth", s.leftPanelWidth),
       bottomPanelHeight := IntOr(doc, "bottomPanelHeight", s.bottomPanelHeight))
  }

  /** The session after `saveSessionState`: the supplied scalars
      overwritten, the tabs and the expanded nodes rebuilt from the request
      alone. */
  function SessionFrom(s: SessionState, doc: Json, blank: EditorTab): SessionState {
    SessionScalars(s, doc).(openTabs := Map(ArrayOr(doc, "openTabs"), TabReader(blank)),
                            expandedTreeNodes := StringNodes(ArrayOr(doc, "expandedTreeNodes")))
  }

  /** The tabs and the nodes do not survive a save: without the keys they
      are empty, and they never depend on the stored session. */
  lemma SessionRebuilt(s: SessionState, t: SessionState, doc: Json, blank: EditorTab)
    ensures GetArray(doc, "openTabs").None? ==> SessionFrom(s, doc, blank).openTabs == []
    ensures GetArray(doc, "expandedTreeNodes").None? ==> SessionFrom(s, doc, blank).expandedTreeNodes == []
    ensures SessionFrom(s, doc, blank).openTabs == SessionFrom(t, doc, blank).openTabs
    ensures SessionFrom(s, doc, blank).expandedTreeNodes == SessionFrom(t, doc, blank).expandedTreeNodes
    ensures |SessionFrom(s, doc, blank).openTabs| == |ArrayOr(doc, "openTabs")|
  {
  }

  method ReadTabs(items: seq<Json>, blank: EditorTab) returns (tabs: seq<EditorTab>)
    ensures tabs == Map(items, TabReader(blank))
  {
    tabs := [];
    for i := 0 to |items|
      invariant tabs == Map(items[..i], TabReader(blank))
    {
      tabs := tabs + [TabFrom(items[i], blank)];
      MapSnoc(items, i, TabReader(blank));
    }
    assert items[..|items|] == items;
  }

  method ReadNodes(items: seq<Json>) returns (nodes: seq<string>)
    ensures nodes == StringNodes(items)
  {
    nodes := [];
    for i := 0 to |items|
      invariant nodes == StringNodes(items[..i])
    {
      assert items[..i + 1][..i] == items[..i];
      if items[i].JString? {
        nodes := nodes + [items[i].s];
      }
    }
    assert items[..|items|] == items;
  }

  /** `saveSessionState` */
  method SaveSessionTo(m: SessionManager, request: Result<Json>, blank: EditorTab) returns (response: string)
    modifies m
    ensures m.state == SessionFrom(old(m.state), Fields(request), blank)
    ensures m.autoSaveEnabled == old(m.autoSaveEnabled) && m.autoSaveInterval == old(m.autoSaveInterval)
    ensures response == SuccessResponse(SavedBody)
  {
    var doc := Fields(request);
    var state := SessionScalars(m.state, doc);
    var tabs := ReadTabs(ArrayOr(doc, "openTabs"), blank);
    var nodes := ReadNodes(ArrayOr(doc, "expandedTreeNodes"));
    m.UpdateState(state.(openTabs := tabs, expandedTreeNodes := nodes));
    response := SuccessResponse(SavedBody);
  }

  function TabDocument(t: EditorTab): Json {
    JObject(map["id" := JString(t.id), "title" := JString(t.title), "content" := JString(t.content),
                "filePath" := JString(t.filePath), "isDirty" := JBool(t.isDirty),
                "cursorLine" := JInt(t.cursorLine), "cursorColumn" := JInt(t.cursorColumn)])
  }

  function NodeDocument(n: string): Json { JString(n) }

  /** The document `getSessionState` answers with. */
  function SessionDocument(s: SessionState): Json {
    JObject(map["activeConnectionId" := JString(s.activeConnectionId), "activeTabId" := JString(s.activeTabId),
                "openTabs" := JArray(Map(s.openTabs, TabDocument)),
                "expandedTreeNodes" := JArray(Map(s.expandedTreeNodes, NodeDocument)),
                "windowWidth" := JInt(s.windowWidth), "windowHeight" := JInt(s.windowHeight),
                "windowX" := JInt(s.windowX), "windowY" := JInt(s.windowY), "isMaximized" := JBool(s.isMaximized),
                "leftPanelWidth" := JInt(s.leftPanelWidth), "bottomPanelHeight" := JInt(s.bottomPanelHeight)])
  }

  predicate TabInRange(t: EditorTab) { InIntRange(t.cursorLine) && InIntRange(t.cursorColumn) }

  predicate SessionInRange(s: SessionState) {
    && InIntRange(s.windowWidth) && InIntRange(s.windowHeight) && InIntRange(s.windowX) && InIntRange(s.windowY)
    && InIntRange(s.leftPanelWidth) && InIntRange(s.bottomPanelHeight)
    && forall k :: 0 <= k < |s.openTabs| ==> TabInRange(s.openTabs[k])
  }

  lemma TabRoundTrip(t: EditorTab, blank: EditorTab)
    requires TabInRange(t)
    ensures TabFrom(TabDocument(t), blank) == t
  {
    var v := TabDocument(t);
    assert GetString(v, "id") == Some(t.id);
    assert GetString(v, "title") == Some(t.title);
    assert GetString(v, "content") == Some(t.content);
    assert GetString(v, "filePath") == Some(t.filePath);
    assert GetBool(v, "isDirty") == Some(t.isDirty);
    assert GetInt64(v, "cursorLine") == Some(t.cursorLine);
    assert GetInt64(v, "cursorColumn") == Some(t.cursorColumn);
  }

  lemma {:induction false} TabsRoundTrip(tabs: seq<EditorTab>, blank: EditorTab)
    requires forall k :: 0 <= k < |tabs| ==> TabInRange(tabs[k])
    ensures Map(Map(tabs, TabDocument), TabReader(blank)) == tabs
  {
    if tabs != [] {
      var init := tabs[..|tabs| - 1];
      var last := tabs[|tabs| - 1];
      assert tabs == init + [last];
      MapAppend(init, [last], TabDocument);
      MapAppend(Map(init, TabDocument), Map([last], TabDocument), TabReader(blank));
      TabsRoundTrip(init, blank);
      TabRoundTrip(last, blank);
    }
  }

  lemma {:induction false} NodesRoundTrip(nodes: seq<string>)
    ensures StringNodes(Map(nodes, NodeDocument)) == nodes
  {
    if nodes != [] {
      var init := nodes[..|nodes| - 1];
      var last := nodes[|nodes| - 1];
      assert nodes == init + [last];
      MapAppend(init, [last], NodeDocument);
      var items := Map(nodes, NodeDocument);
      assert items[..|items| - 1] == Map(init, NodeDocument);
      NodesRoundTrip(init);
    }
  }

  lemma SessionDocumentText(s: SessionState)
    ensures var doc := SessionDocument(s);
      GetString(doc, "activeConnectionId") == Some(s.activeConnectionId)
      && GetString(doc, "activeTabId") == Some(s.activeTabId)
      && GetBool(doc, "isMaximized") == Some(s.isMaximized)
  {
    var doc := SessionDocument(s);
    assert GetString(doc, "activeConnectionId") == Some(s.activeConnectionId);
    assert GetString(doc, "activeTabId") == Some(s.activeTabId);
    assert GetBool(doc, "isMaximized") == Some(s.isMaximized);
  }

  lemma SessionDocumentWindow(s: SessionState)
    requires SessionInRange(s)
    ensures var doc := SessionDocument(s);
      GetInt64(doc, "windowX") == Some(s.windowX) && GetInt64(doc, "windowY") == Some(s.windowY)
      && GetInt64(doc, "windowWidth") == Some(s.windowWidth)
  {
    var doc := SessionDocument(s);
    assert GetInt64(doc, "windowX") == Some(s.windowX);
    assert GetInt64(doc, "windowY") == Some(s.windowY);
    assert GetInt64(doc, "windowWidth") == Some(s.windowWidth);
  }

  lemma SessionDocumentSizes(s: SessionState)
    requires SessionInRange(s)
    ensures var doc := SessionDocument(s);
      GetInt64(doc, "windowHeight") == Some(s.windowHeight)
      && GetInt64(doc, "leftPanelWidth") == Some(s.leftPanelWidth)
      && GetInt64(doc, "bottomPanelHeight") == Some(s.bottomPanelHeight)
  {
    var doc := SessionDocument(s);
    assert GetInt64(doc, "windowHeight") == Some(s.windowHeight);
    assert GetInt64(doc, "leftPanelWidth") == Some(s.leftPanelWidth);
    assert GetInt64(doc, "bottomPanelHeight") == Some(s.bottomPanelHeight);
  }

  lemma ScalarsRoundTrip(s: SessionState, t: SessionState)
    requires SessionInRange(s)
    ensures SessionScalars(t, SessionDocument(s)) == s.(openTabs := t.openTabs, expandedTreeNodes := t.expandedTreeNodes)
  {
    SessionDocumentText(s);
    SessionDocumentWindow(s);
    SessionDocumentSizes(s);
  }

  lemma SessionDocumentArrays(s: SessionState)
    ensures ArrayOr(SessionDocument(s), "openTabs") == Map(s.openTabs, TabDocument)
    ensures ArrayOr(SessionDocument(s), "expandedTreeNodes") == Map(s.expandedTreeNodes, NodeDocument)
  {
  }

  /** Sending the `getSessionState` document back through
      `saveSessionState` restores the session exactly, whatever session it
      is applied to. */
  lemma SessionRoundTrip(s: SessionState, t: SessionState, blank: EditorTab)
    requires SessionInRange(s)
    ensures SessionFrom(t, SessionDocument(s), blank) == s
  {
    ScalarsRoundTrip(s, t);
    SessionDocumentArrays(s);
    TabsRoundTrip(s.openTabs, blank);
    NodesRoundTrip(s.expandedTreeNodes);
  }

  // ---------------------------------------------------------------------

  /** The handler object: a settings manager and a session manager, loaded
      from their files when it is built (here: given). */
  class SettingsProvider {
    const settingsManager: SettingsManager
    const sessionManager: SessionManager

    constructor(settings: AppSettings, state: SessionState, autoSave: bool, intervalSeconds: int)
      ensures settingsManager.settings == settings && sessionManager.state == state
      ensures sessionManager.autoSaveEnabled == autoSave && sessionManager.autoSaveInterval == intervalSeconds
      ensures fresh(settingsManager) && fresh(sessionManager)
    {
      settingsManager := new SettingsManager(settings);
      sessionManager := new SessionManager(state, autoSave, intervalSeconds);
    }

    method UpdateSettings(request: Result<Json>) returns (response: string)
      modifies settingsManager
      ensures settingsManager.settings == MergeSettings(old(settingsManager.settings), Fields(request))
      ensures response == SuccessResponse(SavedBody)
    {
      response := UpdateSettingsOf(settingsManager, request);
    }

    method SaveConnectionProfile(request: Result<Json>, blank: ConnectionProfile, ticks: nat,
                                 encrypt: string -> Result<string>) returns (response: string)
      modifies settingsManager
      ensures settingsManager.settings == old(settingsManager.settings).(connectionProfiles :=
        SavedProfiles(old(settingsManager.settings.connectionProfiles), Fields(request), blank, ticks, encrypt))
      ensures response == SuccessResponse(IdBody(Built(Fields(request), blank, ticks).id))
    {
      response := SaveProfileTo(settingsManager, request, blank, ticks, encrypt);
    }

    method DeleteConnectionProfile(request: Result<Json>) returns (response: string)
      modifies settingsManager
      ensures GetString(Fields(request), "id").None? ==>
        response == ErrorResponse(MissingId) && settingsManager.settings == old(settingsManager.settings)
      ensures GetString(Fields(request), "id").Some? ==>
        var id := GetString(Fields(request), "id").value;
        response == SuccessResponse(DeletedBody)
        && settingsManager.settings == old(settingsManager.settings).(connectionProfiles :=
             RemoveAll(old(settingsManager.settings.connectionProfiles), HasId(id)))
        && Lookup(settingsManager.settings.connectionProfiles, id).None?
    {
      response := DeleteProfileFrom(settingsManager, request);
    }

    function ReadSecret(request: Result<Json>, which: Secret, decrypt: string -> Result<string>): (r: string)
      reads settingsManager
      ensures GetString(Fields(request), "id").None? ==> r == ErrorResponse(MissingId)
    {
      SecretResponse(settingsManager.settings.connectionProfiles, request, which, decrypt)
    }

    function ConnectionProfiles(): (r: seq<ProfileResponse>)
      reads settingsManager
      ensures |r| == |settingsManager.settings.connectionProfiles|
    {
      Map(settingsManager.settings.connectionProfiles, ToProfileResponse)
    }

    method SaveSessionState(request: Result<Json>, blank: EditorTab) returns (response: string)
      modifies sessionManager
      ensures sessionManager.state == SessionFrom(old(sessionManager.state), Fields(request), blank)
      ensures sessionManager.autoSaveEnabled == old(sessionManager.autoSaveEnabled)
      ensures sessionManager.autoSaveInterval == old(sessionManager.autoSaveInterval)
      ensures response == SuccessResponse(SavedBody)
    {
      response := SaveSessionTo(sessionManager, request, blank);
    }
  }
}
