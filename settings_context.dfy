/** `SettingsContext`: the context-layer twin of `SettingsProvider`. Its
    handlers read the same keys, apply the same clamp, the same upsert and
    the same secret rules, and rebuild the session the same way; only the
    text of its `get` responses is written by hand instead of by a
    serializer, and that text denotes the same documents. The class
    therefore shares the specification functions of `SettingsProviders`. */
module SettingsContexts {
  import opened Wrappers
  import opened Lists
  import opened Requests
  import opened JsonUtils
  import opened SettingsManagers
  import opened SessionManagers
  import opened SettingsProviders

  class SettingsContext {
    const settingsManager: SettingsManager
    const sessionManager: SessionManager

    constructor(settings: AppSettings, state: SessionState, autoSave: bool, intervalSeconds: int)
      ensures settingsManager.settings == settings && sessionManager.state == state
      ensures sessionManager.autoSaveEnabled == autoSave && sessionManager.autoSaveInterval == intervalSeconds
      ensures fresh(settingsManager) && fresh(sessionManager)
    {
      settingsManager := new SettingsManager(settings);
      sessionManager := new SessionManager(state, autoSave, intervalSeconds);
    }

    /** `handleUpdateSettings` */
    method HandleUpdateSettings(request: Result<Json>) returns (response: string)
      modifies settingsManager
      ensures settingsManager.settings == MergeSettings(old(settingsManager.settings), Fields(request))
      ensures response == SuccessResponse(SavedBody)
    {
      response := UpdateSettingsOf(settingsManager, request);
    }

    /** `handleSaveConnectionProfile` */
    method HandleSaveConnectionProfile(request: Result<Json>, blank: ConnectionProfile, ticks: nat,
                                       encrypt: string -> Result<string>) returns (response: string)
      modifies settingsManager
      ensures settingsManager.settings == old(settingsManager.settings).(connectionProfiles :=
        SavedProfiles(old(settingsManager.settings.connectionProfiles), Fields(request), blank, ticks, encrypt))
      ensures response == SuccessResponse(IdBody(Built(Fields(request), blank, ticks).id))
    {
      response := SaveProfileTo(settingsManager, request, blank, ticks, encrypt);
    }

    /** `handleDeleteConnectionProfile`: an unknown id is a success. */
    method HandleDeleteConnectionProfile(request: Result<Json>) returns (response: string)
      modifies settingsManager
      ensures GetString(Fields(request), "id").None? ==>
        response == ErrorResponse(MissingId) && settingsManager.settings == old(settingsManager.settings)
      ensures GetString(Fields(request), "id").Some? ==>
        var id := GetString(Fields(request), "id").value;
        response == SuccessResponse(DeletedBody)
        && settingsManager.settings == old(settingsManager.settings).(connectionProfiles :=
             RemoveAll(old(settingsManager.settings.connectionProfiles), HasId(id)))
        && Lookup(settingsManager.settings.connectionProfiles, id).None?
    {
      response := DeleteProfileFrom(settingsManager, request);
    }

    /** `handleGetProfilePassword`, `handleGetSshPassword`,
        `handleGetSshKeyPassphrase` */
    function HandleReadSecret(request: Result<Json>, which: Secret, decrypt: string -> Result<string>): (r: string)
      reads settingsManager
      ensures GetString(Fields(request), "id").None? ==> r == ErrorResponse(MissingId)
    {
      SecretResponse(settingsManager.settings.connectionProfiles, request, which, decrypt)
    }

    /** `handleSaveSessionState` */
    method HandleSaveSessionState(request: Result<Json>, blank: EditorTab) returns (response: string)
      modifies sessionManager
      ensures sessionManager.state == SessionFrom(old(sessionManager.state), Fields(request), blank)
      ensures sessionManager.autoSaveEnabled == old(sessionManager.autoSaveEnabled)
      ensures sessionManager.autoSaveInterval == old(sessionManager.autoSaveInterval)
      ensures response == SuccessResponse(SavedBody)
    {
      response := SaveSessionTo(sessionManager, request, blank);
    }
  }
}
