/** The theme mode and the per-application theme descriptor. */
module Theme {
  import opened Results

  /** Exactly two modes: dark has value 0, light has value 1. */
  datatype ThemeMode = Dark | Light {
    function Value(): nat {
      if this == Dark then 0 else 1
    }
  }

  /** `ThemeMode(v)`: the member whose value is `v`, if there is one. */
  function ModeFromValue(v: int): (r: Option<ThemeMode>)
    ensures r.Some? <==> v == 0 || v == 1
    ensures r.Some? ==> r.value.Value() == v
  {
    if v == 0 then Some(Dark) else if v == 1 then Some(Light) else None
  }

  /** `theme.modes(b)`: the `modes` field is the ThemeMode class itself, and
      a Python bool is the integer 0 or 1, so `True` selects light. */
  function Modes(b: bool): (m: ThemeMode)
    ensures m == Light <==> b
  {
    ModeFromValue(if b then 1 else 0).value
  }

  /** Each mode is the member its own value selects. */
  lemma ValueRoundTrip(m: ThemeMode)
    ensures ModeFromValue(m.Value()) == Some(m)
  {
  }

  /** The adapter a descriptor's `toggle_callback` names. */
  datatype Adapter = SetVscodeTheme | SetTerminalTheme

  /** The record for one application. Only `mode` is ever assigned after
      construction; the other fields are constants. */
  class AppTheme {
    const option: string
    const keys: string
    const lightName: string
    const darkName: string
    const path: string
    const windowsPath: string
    const toggleCallback: Adapter
    var mode: ThemeMode
    const settingsDelimiter: string

    /** The dataclass constructor: mode light and delimiter ':' unless given. */
    constructor (option: string, keys: string, lightName: string, darkName: string,
                 path: string, windowsPath: string, toggleCallback: Adapter,
                 mode: ThemeMode := Light, settingsDelimiter: string := ":")
      ensures this.option == option && this.keys == keys
      ensures this.lightName == lightName && this.darkName == darkName
      ensures this.path == path && this.windowsPath == windowsPath
      ensures this.toggleCallback == toggleCallback
      ensures this.mode == mode && this.settingsDelimiter == settingsDelimiter
    {
      this.option := option;
      this.keys := keys;
      this.lightName := lightName;
      this.darkName := darkName;
      this.path := path;
      this.windowsPath := windowsPath;
      this.toggleCallback := toggleCallback;
      this.mode := mode;
      this.settingsDelimiter := settingsDelimiter;
    }

    /** The `names` property: the dark name, then the light name. */
    function Names(): (names: seq<string>)
      ensures |names| == 2
      ensures names[Dark.Value()] == darkName && names[Light.Value()] == lightName
    {
      [darkName, lightName]
    }

    /** `theme.names[mode.value]`: the name the file uses for `mode`. */
    function NameFor(mode: ThemeMode): (name: string)
      ensures name == (if mode == Light then lightName else darkName)
    {
      Names()[mode.Value()]
    }

    /** `theme.names[b]`, a bool index: the light name exactly when `b`. */
    function NameAt(b: bool): (name: string)
      ensures name == (if b then lightName else darkName)
    {
      Names()[if b then 1 else 0]
    }
  }

  /** A descriptor made with the defaults starts in light mode and splits
      its key on ':'. */
  method DefaultsExample() returns (t: AppTheme)
    ensures t.mode == Light && t.settingsDelimiter == ":"
    ensures t.NameFor(t.mode) == "OneLight"
  {
    t := new AppTheme("terminal", "profiles:defaults:colorScheme", "OneLight", "Dracula",
                      "/mnt/c/settings.json", "C:\\settings.json", SetTerminalTheme);
  }
}
