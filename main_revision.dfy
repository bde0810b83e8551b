/** The single-file revision of the program. Its adapters are the same
    code as the adapter module's and are not repeated here; what differs
    is the descriptor's default mode, the list-indexed toggle, and the
    detection, which a leftover `assert False` sends straight to the
    settings file whenever assertions are enabled. */
module MainRevision {
  import opened Results
  import opened Json
  import opened Disk
  import opened Theme
  import opened Callback
  import ThemeToggler

  /** The dataclass constructor of this revision: mode dark and delimiter
      ':' unless given. */
  method NewApplicationTheme(option: string, keys: string, lightName: string, darkName: string,
                             path: string, windowsPath: string, toggleCallback: Adapter)
    returns (t: AppTheme)
    ensures fresh(t)
    ensures t.option == option && t.keys == keys && t.lightName == lightName && t.darkName == darkName
    ensures t.path == path && t.windowsPath == windowsPath && t.toggleCallback == toggleCallback
    ensures t.mode == Dark && t.settingsDelimiter == ":"
  {
    t := new AppTheme(option, keys, lightName, darkName, path, windowsPath, toggleCallback, Dark);
  }

  /** `modes[b]` on the class attribute `modes = ThemeMode.dark, ThemeMode.light`. */
  function ModesAt(b: bool): (m: ThemeMode)
    ensures m == Modes(b)
  {
    [Dark, Light][if b then 1 else 0]
  }

  /** get_toggled_mode: light if dark, else dark. */
  function GetToggledMode(current: ThemeMode): (toggled: ThemeMode)
    ensures toggled != current
    ensures toggled == ThemeToggler.GetToggledMode(current)
  {
    if current == Dark then Light else Dark
  }

  /** get_current_app_mode of this revision, on `themes[0]` of the list it
      finds in scope: the same answer as the later revision's default. */
  function GetCurrentAppMode(files: Files, codec: Codec, themes: seq<AppTheme>): (r: Result<ThemeMode>)
    ensures r == ThemeToggler.GetCurrentAppMode(files, codec, themes, 0)
  {
    if |themes| == 0 then Err(IndexError)
    else
      var t := themes[0];
      match ResolvePath(files, t.path, t.windowsPath)
      case Err(e) => Err(e)
      case Ok(p) =>
        match LoadObject(files, codec, p)
        case Some(settings) =>
          if t.keys in settings then Ok(ModesAt(settings[t.keys] == Str(t.lightName))) else Ok(Light)
        case None => Ok(Light)
  }

  /** get_current_mode: with assertions enabled the `assert False` raises
      and the settings file decides; without, the registry is read as in
      the later revision. */
  function GetCurrentMode(assertionsEnabled: bool, isWindows: bool, personalize: Option<map<string, int>>,
                          files: Files, codec: Codec, themes: seq<AppTheme>): (r: Result<ThemeMode>)
    ensures assertionsEnabled ==> r == GetCurrentAppMode(files, codec, themes)
    ensures !assertionsEnabled ==> r == ThemeToggler.GetCurrentMode(isWindows, personalize, files, codec, themes)
  {
    if !assertionsEnabled && isWindows && personalize.Some? && ThemeToggler.AppsUseLightTheme in personalize.value then
      Ok(ModesAt(personalize.value[ThemeToggler.AppsUseLightTheme] != 0))
    else GetCurrentAppMode(files, codec, themes)
  }

  /** With assertions enabled the registry is written but never read: the
      detected mode does not depend on it. */
  lemma RegistryIgnored(isWindows: bool, p1: Option<map<string, int>>, p2: Option<map<string, int>>,
                        files: Files, codec: Codec, themes: seq<AppTheme>)
    ensures GetCurrentMode(true, isWindows, p1, files, codec, themes) == GetCurrentMode(true, false, p2, files, codec, themes)
  {
  }

  /** main(themes) of this revision: detection, the toggled mode for every
      descriptor in order, then the system write on Windows. */
  method RunMain(fs: FileSystem, codec: Codec, reg: ThemeToggler.Registry, themes: seq<AppTheme>, assertionsEnabled: bool)
    returns (error: Option<Error>)
    modifies fs, reg, themes
    ensures var current := GetCurrentMode(assertionsEnabled, reg.isWindows, old(reg.personalize), old(fs.files), codec, themes);
            && (current.Err? ==> error == Some(current.error) && fs.files == old(fs.files)
                                 && reg.personalize == old(reg.personalize))
            && (current.Ok? ==>
                  ThemeToggler.Toggled(codec, old(fs.files), old(reg.personalize), fs, reg, themes,
                                       GetToggledMode(current.value), error))
  {
    var current := GetCurrentMode(assertionsEnabled, reg.isWindows, reg.personalize, fs.files, codec, themes);
    if current.Err? {
      return Some(current.error);
    }
    var toggledMode := GetToggledMode(current.value);
    error := ThemeToggler.ApplyToggledMode(fs, codec, reg, themes, toggledMode);
  }
}
