/**
 * The decision logic of the no-GUI host: the host-wide flags (running, batch
 * mode, fullscreen, save state on shutdown), the window title, the saved
 * window geometry, the settings-version check that decides when defaults are
 * written, and the fallbacks that choose the data, settings and resources
 * folders.
 *
 * The VM manager, the file system and the INI file are foreign: whether a VM
 * exists, whether a directory exists or can be created, and whether the INI
 * file loads are parameters. The integer values of the INI file are a map,
 * and every call the host makes into foreign code is appended to a log.
 */
module NoGUIHost {
  import opened Wrappers
  import HostSys

  /** The settings version this build writes. */
  const SETTINGS_VERSION: int := 1

  /** The separator Path::Combine puts between two Windows path components. */
  const PATH_SEPARATOR: char := '\\'

  /** A key of the INI file: its section and its name. */
  datatype SettingKey = SettingKey(section: string, name: string)

  const VERSION_KEY := SettingKey("UI", "SettingsVersion")
  const WINDOW_X_KEY := SettingKey("NoGUI", "WindowX")
  const WINDOW_Y_KEY := SettingKey("NoGUI", "WindowY")
  const WINDOW_WIDTH_KEY := SettingKey("NoGUI", "WindowWidth")
  const WINDOW_HEIGHT_KEY := SettingKey("NoGUI", "WindowHeight")

  /** The four geometry keys in the order they are read and written. */
  const GEOMETRY_KEYS := [WINDOW_X_KEY, WINDOW_Y_KEY, WINDOW_WIDTH_KEY, WINDOW_HEIGHT_KEY]

  /** A window position and size. */
  datatype Geometry = Geometry(x: int, y: int, width: int, height: int)

  datatype VMState = Shutdown | Initializing | Running | Paused | Stopping

  /**
   * The calls the platform layers make into the host. Wheel deltas are the
   * raw signed deltas: the scaling and clamping to [-1, 1] is floating point
   * and keeps only their sign and whether they are zero.
   */
  datatype HostCall =
    | KeyEvent(key: int, pressed: bool)
    | MouseButtonEvent(button: int, pressed: bool)
    | MouseMoveEvent(x: int, y: int)
    | MouseWheelEvent(x: int, y: int)
    | WindowResize(width: int, height: int)
    | ExitRequest

  /** A wheel axis of the pointer. */
  datatype WheelAxis = WheelX | WheelY

  /** The calls the host makes into foreign code. */
  datatype Action =
    | SetVMState(state: VMState)
    | PlatformSetFullscreen(enabled: bool)
    | RefreshGameList
    | WriteDefaultSettings
    | SaveSettings
    | UpdatePointerDelta(axis: WheelAxis, delta: int)

  // ---------------------------------------------------------------------------
  // Pure decisions
  // ---------------------------------------------------------------------------

  /**
   * ProcessPlatformMouseWheelEvent: each non-zero component becomes one
   * relative-delta update, horizontal first.
   */
  function WheelUpdates(x: int, y: int): (r: seq<Action>)
    ensures |r| <= 2
    ensures UpdatePointerDelta(WheelX, x) in r <==> x != 0
    ensures UpdatePointerDelta(WheelY, y) in r <==> y != 0
    ensures forall k :: 0 <= k < |r| ==> r[k].UpdatePointerDelta? && r[k].delta != 0
    ensures |r| == 2 ==> r[0].axis == WheelX && r[1].axis == WheelY
  {
    (if x != 0 then [UpdatePointerDelta(WheelX, x)] else [])
    + (if y != 0 then [UpdatePointerDelta(WheelY, y)] else [])
  }

  /**
   * GetWindowTitle: the game title while a VM runs a titled game, otherwise
   * the application name and version followed by the configuration suffix.
   */
  function GetWindowTitle(hasValidVM: bool, gameTitle: string, appNameAndVersion: string,
                          suffix: string): (title: string)
    ensures hasValidVM && gameTitle != "" ==> title == gameTitle
    ensures !hasValidVM || gameTitle == "" ==> title == appNameAndVersion + suffix
  {
    if !hasValidVM || gameTitle == "" then appNameAndVersion + suffix else gameTitle
  }

  /** The window title is never empty as long as the application name is not. */
  lemma WindowTitleNotEmpty(hasValidVM: bool, gameTitle: string, appNameAndVersion: string, suffix: string)
    requires appNameAndVersion != ""
    ensures GetWindowTitle(hasValidVM, gameTitle, appNameAndVersion, suffix) != ""
  {
    var t := GetWindowTitle(hasValidVM, gameTitle, appNameAndVersion, suffix);
    if !hasValidVM || gameTitle == "" {
      assert t[0] == appNameAndVersion[0];
    }
  }

  /**
   * The settings-version check of InitializeConfig: defaults are written when
   * the file does not load, has no version, or has another version. The
   * version is not consulted when the load fails.
   */
  predicate NeedsDefaults(loaded: bool, settings: map<SettingKey, int>)
  {
    !loaded || VERSION_KEY !in settings || settings[VERSION_KEY] != SETTINGS_VERSION
  }

  /**
   * GetSavedPlatformWindowGeometry as a value: the four integers, present
   * only when all four keys are.
   */
  function SavedGeometry(settings: map<SettingKey, int>): (r: Option<Geometry>)
    ensures r.Some? <==> forall key :: key in GEOMETRY_KEYS ==> key in settings
    ensures r.Some? ==> r.value == Geometry(settings[WINDOW_X_KEY], settings[WINDOW_Y_KEY],
                                            settings[WINDOW_WIDTH_KEY], settings[WINDOW_HEIGHT_KEY])
  {
    if WINDOW_X_KEY in settings && WINDOW_Y_KEY in settings && WINDOW_WIDTH_KEY in settings
       && WINDOW_HEIGHT_KEY in settings
    then Some(Geometry(settings[WINDOW_X_KEY], settings[WINDOW_Y_KEY],
                       settings[WINDOW_WIDTH_KEY], settings[WINDOW_HEIGHT_KEY]))
    else None
  }

  /** The keys that are looked up before the first missing one, and that one. */
  function KeysConsulted(settings: map<SettingKey, int>, keys: seq<SettingKey>): seq<SettingKey>
  {
    if keys == [] then []
    else if keys[0] !in settings then [keys[0]]
    else [keys[0]] + KeysConsulted(settings, keys[1..])
  }

  /** Path::Combine of two non-empty components. */
  function Combine(a: string, b: string): (r: string)
    ensures |r| == |a| + 1 + |b| && r[..|a|] == a && r[|a| + 1..] == b
  {
    a + [PATH_SEPARATOR] + b
  }

  /** The flags and folders of the host, with the INI values and the log of foreign calls. */
  class Host {
    var running: bool
    var batchMode: bool
    var isFullscreen: bool
    var saveStateOnShutdown: bool
    var settings: map<SettingKey, int>
    var appRoot: string
    var resources: string
    var dataRoot: string
    var settingsFolder: string
    var actions: seq<Action>

    /**
     * Every fullscreen request forwarded to the platform toggled the flag:
     * the requests alternate, start with entering fullscreen, and the last
     * one is the current state.
     */
    predicate FullscreenForwarded()
      reads this
    {
      var requests := FullscreenRequests(actions);
      && (requests == [] ==> !isFullscreen)
      && (requests != [] ==> requests[|requests| - 1] == isFullscreen && requests[0])
      && (forall k :: 0 < k < |requests| ==> requests[k] != requests[k - 1])
    }

    /** The host before start-up: every flag off, no folder known, the INI values given. */
    constructor (settings: map<SettingKey, int>)
      ensures !running && !batchMode && !isFullscreen && !saveStateOnShutdown
      ensures this.settings == settings
      ensures appRoot == "" && resources == "" && dataRoot == "" && settingsFolder == ""
      ensures actions == []
      ensures FullscreenForwarded()
    {
      running := false;
      batchMode := false;
      isFullscreen := false;
      saveStateOnShutdown := false;
      this.settings := settings;
      appRoot := "";
      resources := "";
      dataRoot := "";
      settingsFolder := "";
      actions := [];
    }

    /** InBatchMode. */
    function InBatchMode(): (r: bool)
      reads this
      ensures r == batchMode
    {
      batchMode
    }

    /** SetBatchMode: turning batch mode on also starts a game-list refresh. */
    method SetBatchMode(enabled: bool)
      modifies this
      ensures batchMode == enabled
      ensures actions == old(actions) + (if enabled then [RefreshGameList] else [])
      ensures running == old(running) && isFullscreen == old(isFullscreen)
      ensures saveStateOnShutdown == old(saveStateOnShutdown) && settings == old(settings)
      ensures unchanged(this`appRoot, this`resources, this`dataRoot, this`settingsFolder)
      ensures FullscreenForwarded() == old(FullscreenForwarded())
    {
      batchMode := enabled;
      if enabled {
        actions := actions + [RefreshGameList];
        FullscreenRequestsSingle(old(actions), RefreshGameList);
      }
    }

    /**
     * Host::SetFullscreen: a request equal to the current state does nothing;
     * otherwise the flag changes and the request goes to the platform.
     */
    method SetFullscreen(enabled: bool)
      requires FullscreenForwarded()
      modifies this
      ensures isFullscreen == enabled
      ensures old(isFullscreen) == enabled ==> actions == old(actions)
      ensures old(isFullscreen) != enabled ==> actions == old(actions) + [PlatformSetFullscreen(enabled)]
      ensures running == old(running) && batchMode == old(batchMode)
      ensures saveStateOnShutdown == old(saveStateOnShutdown) && settings == old(settings)
      ensures unchanged(this`appRoot, this`resources, this`dataRoot, this`settingsFolder)
      ensures FullscreenForwarded()
    {
      if isFullscreen == enabled {
        return;
      }
      isFullscreen := enabled;
      actions := actions + [PlatformSetFullscreen(enabled)];
      FullscreenRequestsSingle(old(actions), PlatformSetFullscreen(enabled));
    }

    /**
     * Host::RequestExit: with a VM, remembers whether to save its state and
     * asks it to stop; in every case the host stops running.
     */
    method RequestExit(saveStateIfRunning: bool, hasValidVM: bool)
      modifies this
      ensures !running
      ensures hasValidVM ==> saveStateOnShutdown == saveStateIfRunning
                             && actions == old(actions) + [SetVMState(Stopping)]
      ensures !hasValidVM ==> saveStateOnShutdown == old(saveStateOnShutdown) && actions == old(actions)
      ensures batchMode == old(batchMode) && isFullscreen == old(isFullscreen) && settings == old(settings)
      ensures unchanged(this`appRoot, this`resources, this`dataRoot, this`settingsFolder)
      ensures FullscreenForwarded() == old(FullscreenForwarded())
    {
      if hasValidVM {
        saveStateOnShutdown := saveStateIfRunning;
        actions := actions + [SetVMState(Stopping)];
        FullscreenRequestsSingle(old(actions), SetVMState(Stopping));
      }
      running := false;
    }

    /** Host::RequestVMShutdown: as RequestExit, but the host keeps running. */
    method RequestVMShutdown(saveState: bool, hasValidVM: bool)
      modifies this
      ensures running == old(running)
      ensures hasValidVM ==> saveStateOnShutdown == saveState
                             && actions == old(actions) + [SetVMState(Stopping)]
      ensures !hasValidVM ==> saveStateOnShutdown == old(saveStateOnShutdown) && actions == old(actions)
      ensures batchMode == old(batchMode) && isFullscreen == old(isFullscreen) && settings == old(settings)
      ensures unchanged(this`appRoot, this`resources, this`dataRoot, this`settingsFolder)
      ensures FullscreenForwarded() == old(FullscreenForwarded())
    {
      if hasValidVM {
        saveStateOnShutdown := saveState;
        actions := actions + [SetVMState(Stopping)];
        FullscreenRequestsSingle(old(actions), SetVMState(Stopping));
      }
    }

    /** Host::OnVMStarting: a new VM starts without a pending save on shutdown. */
    method OnVMStarting()
      modifies this`saveStateOnShutdown
      ensures !saveStateOnShutdown
    {
      saveStateOnShutdown := false;
    }

    /**
     * GetSavedPlatformWindowGeometry: reads the four keys in order and stops
     * at the first one that is missing.
     */
    method GetSavedPlatformWindowGeometry() returns (ok: bool, geometry: Geometry, consulted: seq<SettingKey>)
      ensures ok <==> SavedGeometry(settings).Some?
      ensures ok ==> geometry == SavedGeometry(settings).value
      ensures consulted == KeysConsulted(settings, GEOMETRY_KEYS)
    {
      geometry := Geometry(0, 0, 0, 0);
      consulted := [WINDOW_X_KEY];
      ok := WINDOW_X_KEY in settings;
      if ok {
        geometry := geometry.(x := settings[WINDOW_X_KEY]);
        consulted := consulted + [WINDOW_Y_KEY];
        ok := WINDOW_Y_KEY in settings;
      }
      if ok {
        geometry := geometry.(y := settings[WINDOW_Y_KEY]);
        consulted := consulted + [WINDOW_WIDTH_KEY];
        ok := WINDOW_WIDTH_KEY in settings;
      }
      if ok {
        geometry := geometry.(width := settings[WINDOW_WIDTH_KEY]);
        consulted := consulted + [WINDOW_HEIGHT_KEY];
        ok := WINDOW_HEIGHT_KEY in settings;
      }
      if ok {
        geometry := geometry.(height := settings[WINDOW_HEIGHT_KEY]);
      }
      KeysConsultedGeometry(settings);
    }

    /**
     * SavePlatformWindowGeometry: while fullscreen nothing is written;
     * otherwise the four values are stored and the file is saved.
     */
    method SavePlatformWindowGeometry(x: int, y: int, width: int, height: int)
      modifies this
      ensures isFullscreen ==> settings == old(settings) && actions == old(actions)
      ensures !isFullscreen ==>
                settings == old(settings)[WINDOW_X_KEY := x][WINDOW_Y_KEY := y]
                                         [WINDOW_WIDTH_KEY := width][WINDOW_HEIGHT_KEY := height]
                && actions == old(actions) + [SaveSettings]
      ensures running == old(running) && batchMode == old(batchMode) && isFullscreen == old(isFullscreen)
      ensures saveStateOnShutdown == old(saveStateOnShutdown)
      ensures unchanged(this`appRoot, this`resources, this`dataRoot, this`settingsFolder)
      ensures FullscreenForwarded() == old(FullscreenForwarded())
    {
      if isFullscreen {
        return;
      }
      settings := settings[WINDOW_X_KEY := x];
      settings := settings[WINDOW_Y_KEY := y];
      settings := settings[WINDOW_WIDTH_KEY := width];
      settings := settings[WINDOW_HEIGHT_KEY := height];
      actions := actions + [SaveSettings];
      FullscreenRequestsSingle(old(actions), SaveSettings);
    }

    /**
     * The version check of InitializeConfig, after SetCriticalFolders
     * (`foldersOk`) and the load of the INI file (`loaded`). SetDefaultConfig
     * stores the current version before the other defaults, and the file is
     * then saved.
     */
    method InitializeConfig(foldersOk: bool, loaded: bool) returns (ok: bool)
      modifies this
      ensures ok == foldersOk
      ensures !foldersOk ==> settings == old(settings) && actions == old(actions)
      ensures foldersOk && NeedsDefaults(loaded, old(settings)) ==>
                settings == old(settings)[VERSION_KEY := SETTINGS_VERSION]
                && actions == old(actions) + [WriteDefaultSettings, SaveSettings]
      ensures foldersOk && !NeedsDefaults(loaded, old(settings)) ==>
                settings == old(settings) && actions == old(actions)
      ensures running == old(running) && batchMode == old(batchMode) && isFullscreen == old(isFullscreen)
      ensures saveStateOnShutdown == old(saveStateOnShutdown)
      ensures unchanged(this`appRoot, this`resources, this`dataRoot, this`settingsFolder)
      ensures FullscreenForwarded() == old(FullscreenForwarded())
    {
      if !foldersOk {
        return false;
      }
      if !loaded || VERSION_KEY !in settings || settings[VERSION_KEY] != SETTINGS_VERSION {
        SetDefaultConfig();
        FullscreenRequestsSingle(actions, SaveSettings);
        actions := actions + [SaveSettings];
      }
      return true;
    }

    /**
     * SetDefaultConfig: the current settings version is stored along with the
     * defaults, which are foreign; saving is left to the caller.
     */
    method SetDefaultConfig()
      modifies this`settings, this`actions
      ensures settings == old(settings)[VERSION_KEY := SETTINGS_VERSION]
      ensures actions == old(actions) + [WriteDefaultSettings]
      ensures FullscreenRequests(actions) == FullscreenRequests(old(actions))
    {
      settings := settings[VERSION_KEY := SETTINGS_VERSION];
      actions := actions + [WriteDefaultSettings];
      FullscreenRequestsSingle(old(actions), WriteDefaultSettings);
    }

    /**
     * SetDataDirectory on Windows and UWP: portable mode uses the program
     * folder; otherwise the app's local folder (UWP) or Documents\PCSX2
     * (desktop, when the Documents folder is known and not empty); a folder
     * that cannot be created is dropped, and an empty data root falls back to
     * the program folder.
     */
    method SetDataDirectory(platform: HostSys.Platform, portable: bool, localFolder: string,
                            documents: Option<string>, directoryExists: string -> bool, create: string -> bool)
      modifies this`dataRoot
      ensures portable ==> dataRoot == appRoot
      ensures dataRoot == DataDirectory(platform, portable, localFolder, documents, directoryExists, create, appRoot, old(dataRoot))
    {
      if portable {
        dataRoot := appRoot;
        return;
      }
      if platform.Uwp? {
        dataRoot := localFolder;
      } else if documents.Some? {
        if |documents.value| > 0 {
          dataRoot := Combine(documents.value, "PCSX2");
        }
      }
      if dataRoot != "" && !directoryExists(dataRoot) {
        if !create(dataRoot) {
          dataRoot := "";
        }
      }
      if dataRoot == "" {
        dataRoot := appRoot;
      }
    }

    /**
     * SetCriticalFolders: the program folder, the resources folder inside it,
     * the data folder, and an empty settings folder set to DataRoot\inis;
     * succeeds exactly when the resources folder exists.
     */
    method SetCriticalFolders(programDirectory: string, platform: HostSys.Platform, portable: bool,
                              localFolder: string, documents: Option<string>,
                              directoryExists: string -> bool, create: string -> bool) returns (ok: bool)
      modifies this`appRoot, this`resources, this`dataRoot, this`settingsFolder
      ensures appRoot == programDirectory
      ensures resources == Combine(programDirectory, "resources")
      ensures dataRoot == DataDirectory(platform, portable, localFolder, documents, directoryExists, create,
                                        programDirectory, old(dataRoot))
      ensures old(settingsFolder) == "" ==> settingsFolder == Combine(dataRoot, "inis")
      ensures old(settingsFolder) != "" ==> settingsFolder == old(settingsFolder)
      ensures ok == directoryExists(resources)
    {
      appRoot := programDirectory;
      resources := Combine(appRoot, "resources");
      SetDataDirectory(platform, portable, localFolder, documents, directoryExists, create);
      if settingsFolder == "" {
        settingsFolder := Combine(dataRoot, "inis");
      }
      ok := directoryExists(resources);
    }
  }

  /** The data folder SetDataDirectory chooses, from the previous DataRoot. */
  function DataDirectory(platform: HostSys.Platform, portable: bool, localFolder: string,
                         documents: Option<string>, directoryExists: string -> bool, create: string -> bool,
                         appRoot: string, previous: string): string
  {
    if portable then appRoot
    else
      var chosen :=
        if platform.Uwp? then localFolder
        else if documents.Some? && |documents.value| > 0 then Combine(documents.value, "PCSX2")
        else previous;
      var kept := if chosen != "" && !directoryExists(chosen) && !create(chosen) then "" else chosen;
      if kept == "" then appRoot else kept
  }

  /** The fullscreen requests among the logged actions, in order. */
  function FullscreenRequests(actions: seq<Action>): seq<bool>
  {
    if actions == [] then []
    else FullscreenRequests(actions[..|actions| - 1])
         + (var a := actions[|actions| - 1]; if a.PlatformSetFullscreen? then [a.enabled] else [])
  }

  /** Only a forwarded fullscreen request shows up among the requests. */
  lemma FullscreenRequestsSingle(a: seq<Action>, x: Action)
    ensures FullscreenRequests(a + [x]) ==
            FullscreenRequests(a) + (if x.PlatformSetFullscreen? then [x.enabled] else [])
    ensures !x.PlatformSetFullscreen? ==> FullscreenRequests(a + [x]) == FullscreenRequests(a)
  {
    assert (a + [x])[..|a + [x]| - 1] == a;
  }

  lemma KeysConsultedGeometry(settings: map<SettingKey, int>)
    ensures KeysConsulted(settings, GEOMETRY_KEYS) ==
      if WINDOW_X_KEY !in settings then [WINDOW_X_KEY]
      else if WINDOW_Y_KEY !in settings then [WINDOW_X_KEY, WINDOW_Y_KEY]
      else if WINDOW_WIDTH_KEY !in settings then [WINDOW_X_KEY, WINDOW_Y_KEY, WINDOW_WIDTH_KEY]
      else GEOMETRY_KEYS
  {
    var k3 := [WINDOW_HEIGHT_KEY];
    var k2 := [WINDOW_WIDTH_KEY] + k3;
    var k1 := [WINDOW_Y_KEY] + k2;
    assert GEOMETRY_KEYS == [WINDOW_X_KEY] + k1;
    assert k3[1..] == [];
    assert KeysConsulted(settings, k3) == k3;
    assert k2[1..] == k3;
    assert KeysConsulted(settings, k2) == if WINDOW_WIDTH_KEY !in settings then [WINDOW_WIDTH_KEY] else k2;
    assert k1[1..] == k2;
    assert KeysConsulted(settings, k1) ==
      if WINDOW_Y_KEY !in settings then [WINDOW_Y_KEY] else [WINDOW_Y_KEY] + KeysConsulted(settings, k2);
    assert GEOMETRY_KEYS[1..] == k1;
  }

  /**
   * The lookup stops at the first missing key: every key consulted before
   * the last one was present, and all four are consulted exactly when the
   * first three are present.
   */
  lemma {:induction false} KeysConsultedStopsAtFirstMissing(settings: map<SettingKey, int>, keys: seq<SettingKey>)
    ensures var c := KeysConsulted(settings, keys);
      && |c| <= |keys|
      && c == keys[..|c|]
      && (forall k :: 0 <= k < |c| - 1 ==> c[k] in settings)
      && (|c| < |keys| ==> c[|c| - 1] !in settings)
    decreases |keys|
  {
    if keys != [] && keys[0] in settings {
      KeysConsultedStopsAtFirstMissing(settings, keys[1..]);
      var c' := KeysConsulted(settings, keys[1..]);
      assert KeysConsulted(settings, keys) == [keys[0]] + c';
      assert keys[..|c'| + 1] == [keys[0]] + keys[1..][..|c'|];
    }
  }

  /** Saving the geometry and reading it back returns the saved values. */
  lemma GeometryRoundTrip(settings: map<SettingKey, int>, g: Geometry)
    ensures SavedGeometry(settings[WINDOW_X_KEY := g.x][WINDOW_Y_KEY := g.y]
                                  [WINDOW_WIDTH_KEY := g.width][WINDOW_HEIGHT_KEY := g.height]) == Some(g)
  {
  }

  /** Once defaults are written, a later start with a loadable file keeps the settings. */
  lemma DefaultsAreStable(settings: map<SettingKey, int>)
    ensures !NeedsDefaults(true, settings[VERSION_KEY := SETTINGS_VERSION])
  {
  }

  /** The data folder is never empty as long as the program folder is not. */
  lemma DataDirectoryNotEmpty(platform: HostSys.Platform, portable: bool, localFolder: string,
                              documents: Option<string>, directoryExists: string -> bool, create: string -> bool,
                              appRoot: string, previous: string)
    requires appRoot != ""
    ensures DataDirectory(platform, portable, localFolder, documents, directoryExists, create, appRoot, previous) != ""
  {
  }

  /**
   * On the desktop build, without portable mode, a known non-empty Documents
   * folder gives Documents\PCSX2 when that folder exists or can be created.
   */
  lemma DocumentsDataDirectory(documents: string, directoryExists: string -> bool, create: string -> bool,
                               appRoot: string, previous: string)
    requires documents != ""
    requires directoryExists(Combine(documents, "PCSX2")) || create(Combine(documents, "PCSX2"))
    ensures DataDirectory(HostSys.Desktop, false, "", Some(documents), directoryExists, create, appRoot, previous)
            == Combine(documents, "PCSX2")
  {
  }
}
