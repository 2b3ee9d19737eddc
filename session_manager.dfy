/** `SessionManager`: the state of the editor session (open tabs, the
    active tab and connection, window and panel geometry, expanded tree
    nodes) and the auto-save setting. Reading and writing `session.json`
    and the `lastSaved` time stamp are not part of this model. */
module SessionManagers {
  import opened Wrappers
  import opened Lists

  datatype EditorTab = EditorTab(
    id: string,
    title: string,
    content: string,
    filePath: string,
    isDirty: bool,
    cursorLine: int,
    cursorColumn: int)

  datatype SessionState = SessionState(
    activeConnectionId: string,
    activeTabId: string,
    openTabs: seq<EditorTab>,
    expandedTreeNodes: seq<string>,
    windowWidth: int,
    windowHeight: int,
    windowX: int,
    windowY: int,
    isMaximized: bool,
    leftPanelWidth: int,
    bottomPanelHeight: int)

  function TabId(id: string): EditorTab -> bool {
    (t: EditorTab) => t.id == id
  }

  /** The first open tab with the id. */
  function FindTab(tabs: seq<EditorTab>, id: string): (r: Option<EditorTab>)
    ensures r.Some? ==> r.value.id == id && r.value in tabs
    ensures r.None? <==> forall j :: 0 <= j < |tabs| ==> tabs[j].id != id
  {
    match FindFirst(tabs, TabId(id))
    case Some(i) => Some(tabs[i])
    case None => None
  }

  /** An added tab is found by its id unless an older tab has the same id;
      every other id finds what it found before. */
  lemma FindTabAfterAdd(tabs: seq<EditorTab>, tab: EditorTab)
    ensures FindTab(tabs + [tab], tab.id) == if FindTab(tabs, tab.id).Some? then FindTab(tabs, tab.id) else Some(tab)
    ensures forall id :: id != tab.id ==> FindTab(tabs + [tab], id) == FindTab(tabs, id)
  {
    FindFirstSnoc(tabs, TabId(tab.id), tab);
    forall id | id != tab.id ensures FindTab(tabs + [tab], id) == FindTab(tabs, id) {
      FindFirstSnoc(tabs, TabId(id), tab);
    }
  }

  /** An updated tab is found by its id if the id was open. */
  lemma FindTabAfterUpdate(tabs: seq<EditorTab>, tab: EditorTab)
    ensures FindTab(ReplaceFirst(tabs, TabId(tab.id), tab), tab.id) == if FindTab(tabs, tab.id).Some? then Some(tab) else None
  {
    FindFirstReplace(tabs, TabId(tab.id), tab);
  }

  /** A removed tab is gone, every other tab stays, and removing it again
      changes nothing. */
  lemma RemovedTab(tabs: seq<EditorTab>, id: string)
    ensures FindTab(RemoveAll(tabs, TabId(id)), id) == None
    ensures forall t :: t in RemoveAll(tabs, TabId(id)) <==> t in tabs && t.id != id
    ensures RemoveAll(RemoveAll(tabs, TabId(id)), TabId(id)) == RemoveAll(tabs, TabId(id))
  {
    FindFirstRemoved(tabs, TabId(id));
    forall t ensures t in RemoveAll(tabs, TabId(id)) <==> t in tabs && t.id != id {
      RemoveAllMembers(tabs, TabId(id), t);
    }
    RemoveAllIdempotent(tabs, TabId(id));
  }

  class SessionManager {
    var state: SessionState
    var autoSaveEnabled: bool
    var autoSaveInterval: int

    /** The manager with the session `load` produced and the auto-save
        setting it starts with. */
    constructor(loaded: SessionState, autoSave: bool, intervalSeconds: int)
      ensures state == loaded && autoSaveEnabled == autoSave && autoSaveInterval == intervalSeconds
    {
      state := loaded;
      autoSaveEnabled := autoSave;
      autoSaveInterval := intervalSeconds;
    }

    /** `updateState`: the whole state replaced. */
    method UpdateState(s: SessionState)
      modifies this
      ensures state == s && autoSaveEnabled == old(autoSaveEnabled) && autoSaveInterval == old(autoSaveInterval)
    {
      state := s;
    }

    /** `addTab`: appended at the end. */
    method AddTab(tab: EditorTab)
      modifies this
      ensures state == old(state).(openTabs := old(state.openTabs) + [tab])
      ensures autoSaveEnabled == old(autoSaveEnabled) && autoSaveInterval == old(autoSaveInterval)
    {
      state := state.(openTabs := state.openTabs + [tab]);
    }

    /** `updateTab`: the first tab with the id replaced, nothing changed
        when there is none. */
    method UpdateTab(tab: EditorTab)
      modifies this
      ensures state == old(state).(openTabs := ReplaceFirst(old(state.openTabs), TabId(tab.id), tab))
      ensures autoSaveEnabled == old(autoSaveEnabled) && autoSaveInterval == old(autoSaveInterval)
    {
      var found := FindFirst(state.openTabs, TabId(tab.id));
      if found.Some? {
        state := state.(openTabs := state.openTabs[found.value := tab]);
      }
    }

    /** `removeTab`: every tab with the id removed, the others in order. */
    method RemoveTab(id: string)
      modifies this
      ensures state == old(state).(openTabs := RemoveAll(old(state.openTabs), TabId(id)))
      ensures autoSaveEnabled == old(autoSaveEnabled) && autoSaveInterval == old(autoSaveInterval)
    {
      state := state.(openTabs := RemoveAll(state.openTabs, TabId(id)));
    }

    /** `setActiveTab`: the id is taken as given, open or not. */
    method SetActiveTab(id: string)
      modifies this
      ensures state == old(state).(activeTabId := id)
      ensures autoSaveEnabled == old(autoSaveEnabled) && autoSaveInterval == old(autoSaveInterval)
    {
      state := state.(activeTabId := id);
    }

    /** `updateWindowState`: exactly the position, the size and the
        maximized flag. */
    method UpdateWindowState(x: int, y: int, width: int, height: int, maximized: bool)
      modifies this
      ensures state == old(state).(windowX := x, windowY := y, windowWidth := width, windowHeight := height,
                                   isMaximized := maximized)
      ensures autoSaveEnabled == old(autoSaveEnabled) && autoSaveInterval == old(autoSaveInterval)
    {
      state := state.(windowX := x);
      state := state.(windowY := y);
      state := state.(windowWidth := width);
      state := state.(windowHeight := height);
      state := state.(isMaximized := maximized);
    }

    /** `updatePanelSizes`: exactly the two panel sizes. */
    method UpdatePanelSizes(leftWidth: int, bottomHeight: int)
      modifies this
      ensures state == old(state).(leftPanelWidth := leftWidth, bottomPanelHeight := bottomHeight)
      ensures autoSaveEnabled == old(autoSaveEnabled) && autoSaveInterval == old(autoSaveInterval)
    {
      state := state.(leftPanelWidth := leftWidth);
      state := state.(bottomPanelHeight := bottomHeight);
    }

    /** `setActiveConnection` */
    method SetActiveConnection(id: string)
      modifies this
      ensures state == old(state).(activeConnectionId := id)
      ensures autoSaveEnabled == old(autoSaveEnabled) && autoSaveInterval == old(autoSaveInterval)
    {
      state := state.(activeConnectionId := id);
    }

    /** `setExpandedNodes`: the list replaced as given. */
    method SetExpandedNodes(nodeIds: seq<string>)
      modifies this
      ensures state == old(state).(expandedTreeNodes := nodeIds)
      ensures autoSaveEnabled == old(autoSaveEnabled) && autoSaveInterval == old(autoSaveInterval)
    {
      state := state.(expandedTreeNodes := nodeIds);
    }

    /** `enableAutoSave`: the flag and the interval. */
    method EnableAutoSave(intervalSeconds: int)
      modifies this
      ensures autoSaveEnabled && autoSaveInterval == intervalSeconds && state == old(state)
    {
      autoSaveEnabled := true;
      autoSaveInterval := intervalSeconds;
    }

    /** `disableAutoSave`: only the flag; the interval is kept. */
    method DisableAutoSave()
      modifies this
      ensures !autoSaveEnabled && autoSaveInterval == old(autoSaveInterval) && state == old(state)
    {
      autoSaveEnabled := false;
    }
  }
}
