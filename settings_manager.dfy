/** `SettingsManager`: the application settings held in memory, with the
    list of saved connection profiles and the encrypted secrets each profile
    keeps. Reading and writing `settings.json` is not part of this model;
    encryption and decryption (`CredentialProtector`) are function
    parameters. */
module SettingsManagers {
  import opened Wrappers
  import opened Lists

  datatype SshAuthType = Password | PrivateKey

  datatype SshConfig = SshConfig(
    enabled: bool,
    host: string,
    port: int,
    username: string,
    authType: SshAuthType,
    encryptedPassword: string,
    privateKeyPath: string,
    encryptedKeyPassphrase: string)

  datatype ConnectionProfile = ConnectionProfile(
    id: string,
    name: string,
    server: string,
    port: int,
    database: string,
    username: string,
    useWindowsAuth: bool,
    savePassword: bool,
    encryptedPassword: string,
    isProduction: bool,
    isReadOnly: bool,
    environment: string,
    dbType: string,
    ssh: SshConfig)

  datatype GeneralSettings = GeneralSettings(
    autoConnect: bool,
    lastConnectionId: string,
    confirmOnExit: bool,
    maxQueryHistory: int,
    maxRecentConnections: int,
    language: string)

  datatype EditorSettings = EditorSettings(
    fontSize: int,
    fontFamily: string,
    wordWrap: bool,
    tabSize: int,
    insertSpaces: bool,
    showLineNumbers: bool,
    showMinimap: bool,
    theme: string)

  datatype GridSettings = GridSettings(
    defaultPageSize: int,
    showRowNumbers: bool,
    enableCellEditing: bool,
    dateFormat: string,
    nullDisplay: string)

  datatype WindowSettings = WindowSettings(width: int, height: int, x: int, y: int, isMaximized: bool)

  datatype AppSettings = AppSettings(
    general: GeneralSettings,
    editor: EditorSettings,
    grid: GridSettings,
    window: WindowSettings,
    connectionProfiles: seq<ConnectionProfile>)

  /** The three secrets a profile keeps encrypted: the database password,
      the SSH password and the passphrase of the SSH key. */
  datatype Secret = ProfilePassword | SshPassword | KeyPassphrase

  /** The lookup `std::ranges::find(profiles, id, &ConnectionProfile::id)`
      matches on. */
  function HasId(id: string): ConnectionProfile -> bool {
    (p: ConnectionProfile) => p.id == id
  }

  /** `getConnectionProfile`: the first profile with the id. */
  function Lookup(profiles: seq<ConnectionProfile>, id: string): (r: Option<ConnectionProfile>)
    ensures r.Some? ==> r.value.id == id && r.value in profiles
    ensures r.None? <==> forall j :: 0 <= j < |profiles| ==> profiles[j].id != id
  {
    match FindFirst(profiles, HasId(id))
    case Some(i) => Some(profiles[i])
    case None => None
  }

  /** After `addConnectionProfile`, a lookup of the new id finds the new
      profile unless a profile with that id was already there: the append
      does not check for duplicates, and the older one shadows it. */
  lemma LookupAfterAdd(profiles: seq<ConnectionProfile>, p: ConnectionProfile)
    ensures Lookup(profiles + [p], p.id) == if Lookup(profiles, p.id).Some? then Lookup(profiles, p.id) else Some(p)
    ensures forall id :: id != p.id ==> Lookup(profiles + [p], id) == Lookup(profiles, id)
  {
    FindFirstSnoc(profiles, HasId(p.id), p);
    forall id | id != p.id ensures Lookup(profiles + [p], id) == Lookup(profiles, id) {
      FindFirstSnoc(profiles, HasId(id), p);
    }
  }

  /** After `updateConnectionProfile`, a lookup of its id finds the new
      profile if the id was known, and nothing otherwise. */
  lemma LookupAfterUpdate(profiles: seq<ConnectionProfile>, p: ConnectionProfile)
    ensures Lookup(ReplaceFirst(profiles, HasId(p.id), p), p.id) == if Lookup(profiles, p.id).Some? then Some(p) else None
  {
    FindFirstReplace(profiles, HasId(p.id), p);
  }

  /** After `removeConnectionProfile`, the id is unknown. */
  lemma LookupAfterRemove(profiles: seq<ConnectionProfile>, id: string)
    ensures Lookup(RemoveAll(profiles, HasId(id)), id) == None
  {
    FindFirstRemoved(profiles, HasId(id));
  }

  /** Writing a profile over the first profile with its id: a lookup of
      that id finds the new profile, a lookup of any other id finds what it
      found before. */
  lemma LookupAfterWrite(profiles: seq<ConnectionProfile>, i: nat, q: ConnectionProfile)
    requires FindFirst(profiles, HasId(q.id)) == Some(i)
    ensures Lookup(profiles[i := q], q.id) == Some(q)
    ensures forall id :: id != q.id ==> Lookup(profiles[i := q], id) == Lookup(profiles, id)
  {
    var after := profiles[i := q];
    FindFirstUnique(after, HasId(q.id), i);
    forall id | id != q.id ensures Lookup(after, id) == Lookup(profiles, id) {
      var found := FindFirst(profiles, HasId(id));
      if found.Some? {
        FindFirstUnique(after, HasId(id), found.value);
      }
    }
  }

  /** The encrypted form of one secret as the profile stores it. */
  function Stored(p: ConnectionProfile, which: Secret): string {
    match which
    case ProfilePassword => p.encryptedPassword
    case SshPassword => p.ssh.encryptedPassword
    case KeyPassphrase => p.ssh.encryptedKeyPassphrase
  }

  /** The profile with one secret replaced by `cipher`; `saving` is what
      `savePassword` becomes when the secret is the database password:
      true when a password is stored, false when it is cleared. The SSH
      secrets leave `savePassword` alone. */
  function WithSecret(p: ConnectionProfile, which: Secret, cipher: string, saving: bool): (q: ConnectionProfile)
    ensures Stored(q, which) == cipher
    ensures forall other :: other != which ==> Stored(q, other) == Stored(p, other)
    ensures q.id == p.id && q.name == p.name && q.server == p.server && q.ssh.host == p.ssh.host
    ensures q.savePassword == if which == ProfilePassword then saving else p.savePassword
  {
    match which
    case ProfilePassword => p.(encryptedPassword := cipher, savePassword := saving)
    case SshPassword => p.(ssh := p.ssh.(encryptedPassword := cipher))
    case KeyPassphrase => p.(ssh := p.ssh.(encryptedKeyPassphrase := cipher))
  }

  function NotFound(id: string): string {
    "Profile not found: " + id
  }

  /** `setProfilePassword`, `setSshPassword` and `setSshKeyPassphrase`:
      unknown ids are an error; an empty value clears the secret; otherwise
      the encrypted value is stored, or the encryption error returned and
      nothing changes. */
  function SetSecret(profiles: seq<ConnectionProfile>, id: string, which: Secret, plain: string,
                     encrypt: string -> Result<string>): Result<seq<ConnectionProfile>>
  {
    match FindFirst(profiles, HasId(id))
    case None => Err(NotFound(id))
    case Some(i) =>
      if plain == [] then Ok(profiles[i := WithSecret(profiles[i], which, [], false)])
      else
        match encrypt(plain)
        case Err(e) => Err(e)
        case Ok(cipher) => Ok(profiles[i := WithSecret(profiles[i], which, cipher, true)])
  }

  /** `getProfilePassword`, `getSshPassword` and `getSshKeyPassphrase`:
      unknown ids are an error, an empty stored secret reads as the empty
      string without a decryption, anything else is decrypted. */
  function GetSecret(profiles: seq<ConnectionProfile>, id: string, which: Secret, decrypt: string -> Result<string>)
    : Result<string>
  {
    match Lookup(profiles, id)
    case None => Err(NotFound(id))
    case Some(p) => if Stored(p, which) == [] then Ok([]) else decrypt(Stored(p, which))
  }

  /** A set secret reads back: the empty value as empty, any other value
      through the decryption of its encryption. The other secrets, the
      other profiles and the order are kept. */
  lemma SecretRoundTrip(profiles: seq<ConnectionProfile>, id: string, which: Secret, plain: string,
                        encrypt: string -> Result<string>, decrypt: string -> Result<string>)
    requires SetSecret(profiles, id, which, plain, encrypt).Ok?
    requires plain != [] ==> encrypt(plain).Ok? && encrypt(plain).value != [] && decrypt(encrypt(plain).value) == Ok(plain)
    ensures var after := SetSecret(profiles, id, which, plain, encrypt).value;
      GetSecret(after, id, which, decrypt) == Ok(plain)
      && |after| == |profiles|
      && (forall other :: other != which ==> GetSecret(after, id, other, decrypt) == GetSecret(profiles, id, other, decrypt))
      && (forall j :: 0 <= j < |profiles| && profiles[j].id != id ==> after[j] == profiles[j])
  {
    var i := FindFirst(profiles, HasId(id)).value;
    var after := SetSecret(profiles, id, which, plain, encrypt).value;
    var p := after[i];
    assert forall j :: 0 <= j < i ==> after[j] == profiles[j];
    FindFirstUnique(after, HasId(id), i);
    assert Lookup(after, id) == Some(p);
    assert Lookup(profiles, id) == Some(profiles[i]);
  }

  /** Setting the database password sets `savePassword` exactly when the
      password is not empty; the SSH setters never change it. */
  lemma SavePasswordAfterSet(profiles: seq<ConnectionProfile>, id: string, which: Secret, plain: string,
                             encrypt: string -> Result<string>)
    requires SetSecret(profiles, id, which, plain, encrypt).Ok?
    ensures Lookup(profiles, id).Some?
    ensures var after := SetSecret(profiles, id, which, plain, encrypt).value;
      Lookup(after, id).Some?
      && Lookup(after, id).value.savePassword
         == if which == ProfilePassword then plain != [] else Lookup(profiles, id).value.savePassword
  {
    var i := FindFirst(profiles, HasId(id)).value;
    var after := SetSecret(profiles, id, which, plain, encrypt).value;
    assert forall j :: 0 <= j < i ==> after[j] == profiles[j];
    FindFirstUnique(after, HasId(id), i);
  }

  /** A secret of an unknown profile can be neither set nor read. */
  lemma SecretUnknownProfile(profiles: seq<ConnectionProfile>, id: string, which: Secret, plain: string,
                             encrypt: string -> Result<string>, decrypt: string -> Result<string>)
    requires forall j :: 0 <= j < |profiles| ==> profiles[j].id != id
    ensures SetSecret(profiles, id, which, plain, encrypt) == Err(NotFound(id))
    ensures GetSecret(profiles, id, which, decrypt) == Err(NotFound(id))
  {
  }

  class SettingsManager {
    var settings: AppSettings

    /** The manager with the settings `load` produced: the defaults, or
        those read from `settings.json`. */
    constructor(loaded: AppSettings)
      ensures settings == loaded
    {
      settings := loaded;
    }

    /** `updateSettings`: the whole settings replaced. */
    method UpdateSettings(s: AppSettings)
      modifies this
      ensures settings == s
    {
      settings := s;
    }

    /** `addConnectionProfile`: appended, even when the id is taken. */
    method AddConnectionProfile(profile: ConnectionProfile)
      modifies this
      ensures settings == old(settings).(connectionProfiles := old(settings.connectionProfiles) + [profile])
    {
      settings := settings.(connectionProfiles := settings.connectionProfiles + [profile]);
    }

    /** `updateConnectionProfile`: the first profile with the id replaced,
        nothing changed when there is none. */
    method UpdateConnectionProfile(profile: ConnectionProfile)
      modifies this
      ensures settings == old(settings).(connectionProfiles := ReplaceFirst(old(settings.connectionProfiles), HasId(profile.id), profile))
    {
      var found := FindFirst(settings.connectionProfiles, HasId(profile.id));
      if found.Some? {
        settings := settings.(connectionProfiles := settings.connectionProfiles[found.value := profile]);
      }
    }

    /** `removeConnectionProfile`: every profile with the id removed, the
        others kept in order. */
    method RemoveConnectionProfile(id: string)
      modifies this
      ensures settings == old(settings).(connectionProfiles := RemoveAll(old(settings.connectionProfiles), HasId(id)))
      ensures forall j :: 0 <= j < |settings.connectionProfiles| ==> settings.connectionProfiles[j].id != id
    {
      settings := settings.(connectionProfiles := RemoveAll(settings.connectionProfiles, HasId(id)));
      forall j | 0 <= j < |settings.connectionProfiles| ensures settings.connectionProfiles[j].id != id {
        RemoveAllMembers(old(settings.connectionProfiles), HasId(id), settings.connectionProfiles[j]);
      }
    }

    function GetConnectionProfile(id: string): Option<ConnectionProfile>
      reads this
    {
      Lookup(settings.connectionProfiles, id)
    }

    /** The shared body of the three setters: on an error nothing changes. */
    method StoreSecret(id: string, which: Secret, plain: string, encrypt: string -> Result<string>)
      returns (error: Option<string>)
      modifies this
      ensures var r := SetSecret(old(settings.connectionProfiles), id, which, plain, encrypt);
        (r.Err? ==> error == Some(r.error) && settings == old(settings))
        && (r.Ok? ==> error == None && settings == old(settings).(connectionProfiles := r.value))
    {
      var found := FindFirst(settings.connectionProfiles, HasId(id));
      if found.None? {
        return Some(NotFound(id));
      }
      var i := found.value;
      var p := settings.connectionProfiles[i];
      if plain == [] {
        settings := settings.(connectionProfiles := settings.connectionProfiles[i := WithSecret(p, which, [], false)]);
        return None;
      }
      var encrypted := encrypt(plain);
      if encrypted.Err? {
        return Some(encrypted.error);
      }
      settings := settings.(connectionProfiles := settings.connectionProfiles[i := WithSecret(p, which, encrypted.value, true)]);
      error := None;
    }

    /** `setProfilePassword` */
    method SetProfilePassword(id: string, plain: string, encrypt: string -> Result<string>) returns (error: Option<string>)
      modifies this
      ensures var r := SetSecret(old(settings.connectionProfiles), id, ProfilePassword, plain, encrypt);
        (r.Err? ==> error == Some(r.error) && settings == old(settings))
        && (r.Ok? ==> error == None && settings == old(settings).(connectionProfiles := r.value))
    {
      error := StoreSecret(id, ProfilePassword, plain, encrypt);
    }

    /** `setSshPassword` */
    method SetSshPassword(id: string, plain: string, encrypt: string -> Result<string>) returns (error: Option<string>)
      modifies this
      ensures var r := SetSecret(old(settings.connectionProfiles), id, SshPassword, plain, encrypt);
        (r.Err? ==> error == Some(r.error) && settings == old(settings))
        && (r.Ok? ==> error == None && settings == old(settings).(connectionProfiles := r.value))
    {
      error := StoreSecret(id, SshPassword, plain, encrypt);
    }

    /** `setSshKeyPassphrase` */
    method SetSshKeyPassphrase(id: string, plain: string, encrypt: string -> Result<string>) returns (error: Option<string>)
      modifies this
      ensures var r := SetSecret(old(settings.connectionProfiles), id, KeyPassphrase, plain, encrypt);
        (r.Err? ==> error == Some(r.error) && settings == old(settings))
        && (r.Ok? ==> error == None && settings == old(settings).(connectionProfiles := r.value))
    {
      error := StoreSecret(id, KeyPassphrase, plain, encrypt);
    }

    /** `getProfilePassword`, `getSshPassword`, `getSshKeyPassphrase` */
    function GetStoredSecret(id: string, which: Secret, decrypt: string -> Result<string>): Result<string>
      reads this
    {
      GetSecret(settings.connectionProfiles, id, which, decrypt)
    }
  }
}
