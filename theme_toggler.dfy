/** The driver: detect the current mode (registry first, then the first
    descriptor's settings file), toggle it, give the toggled mode to every
    descriptor and run its adapter, then write the system mode. */
module ThemeToggler {
  import opened Results
  import opened Json
  import opened Disk
  import opened Theme
  import opened Callback

  const AppsUseLightTheme := "AppsUseLightTheme"
  const SystemUsesLightTheme := "SystemUsesLightTheme"

  /** The current user's Personalize key of the Windows registry. */
  class Registry {
    /** `import winreg` succeeded. */
    const isWindows: bool
    /** The key's values, or None when the key cannot be opened. */
    var personalize: Option<map<string, int>>

    constructor (isWindows: bool, personalize: Option<map<string, int>>)
      ensures this.isWindows == isWindows && this.personalize == personalize
    {
      this.isWindows := isWindows;
      this.personalize := personalize;
    }
  }

  /** `ThemeMode(current_mode == ThemeMode.dark)` */
  function GetToggledMode(current: ThemeMode): (toggled: ThemeMode)
    ensures toggled != current
  {
    Modes(current == Dark)
  }

  /** Toggling twice gives the mode back. */
  lemma ToggleTwice(m: ThemeMode)
    ensures GetToggledMode(GetToggledMode(m)) == m
  {
  }

  /** `themes[theme_id]`, Python's indexing with negative indices counting
      from the end, falling back to `themes[0]` on IndexError; an empty
      sequence raises IndexError at `themes[0]`. */
  function SelectTheme(themes: seq<AppTheme>, themeId: int): (r: Result<AppTheme>)
    ensures r.Err? <==> |themes| == 0
    ensures r.Err? ==> r.error == IndexError
    ensures r.Ok? && 0 <= themeId < |themes| ==> r.value == themes[themeId]
    ensures r.Ok? && -|themes| <= themeId < 0 ==> r.value == themes[|themes| + themeId]
    ensures r.Ok? && !(-|themes| <= themeId < |themes|) ==> r.value == themes[0]
  {
    if |themes| == 0 then Err(IndexError)
    else if 0 <= themeId < |themes| then Ok(themes[themeId])
    else if -|themes| <= themeId < 0 then Ok(themes[|themes| + themeId])
    else Ok(themes[0])
  }

  /** The value stored under the descriptor's key in the JSON object at `p`. */
  function StoredValue(files: Files, codec: Codec, t: AppTheme, p: string): Option<Value> {
    match LoadObject(files, codec, p)
    case Some(fields) => if t.keys in fields then Some(fields[t.keys]) else None
    case None => None
  }

  /** `theme.modes(settings[theme.keys] == theme.light_name)`, light when
      anything in the way fails. */
  function ModeInFile(files: Files, codec: Codec, t: AppTheme, p: string): (m: ThemeMode)
    ensures m == Dark <==> StoredValue(files, codec, t, p).Some? && StoredValue(files, codec, t, p).value != Str(t.lightName)
  {
    match StoredValue(files, codec, t, p)
    case Some(v) => Modes(v == Str(t.lightName))
    case None => Light
  }

  /** get_current_app_mode: the mode the chosen descriptor's file records.
      Only an empty `themes` or an error other than FileNotFoundError on
      the primary path's probe escapes; every other failure gives light. */
  function GetCurrentAppMode(files: Files, codec: Codec, themes: seq<AppTheme>, themeId: int := 0): (r: Result<ThemeMode>)
    ensures r.Err? <==> |themes| == 0 || Target(files, SelectTheme(themes, themeId).value).Err?
    ensures r.Ok? ==> (r.value == Dark <==>
              var t := SelectTheme(themes, themeId).value;
              var v := StoredValue(files, codec, t, Target(files, t).value);
              v.Some? && v.value != Str(t.lightName))
  {
    match SelectTheme(themes, themeId)
    case Err(e) => Err(e)
    case Ok(t) =>
      match Target(files, t)
      case Err(e) => Err(e)
      case Ok(p) => Ok(ModeInFile(files, codec, t, p))
  }

  /** After the JSON adapter has stored a mode for the first descriptor,
      detection from that descriptor's file reads the same mode back, so
      consecutive runs alternate. */
  lemma DetectAfterVscodeWrite(files: Files, codec: Codec, themes: seq<AppTheme>, mode: ThemeMode)
    requires ReadsBack(codec)
    requires |themes| > 0 && themes[0].lightName != themes[0].darkName
    requires VscodeEffect(files, codec, themes[0], mode).outcome.Done?
    ensures GetCurrentAppMode(VscodeEffect(files, codec, themes[0], mode).files, codec, themes) == Ok(mode)
  {
    VscodeKeepsTarget(files, codec, themes[0], mode);
    VscodeStoresName(files, codec, themes[0], mode);
  }

  /** The registry's answer, when `winreg` exists, the key opens and
      AppsUseLightTheme is there: light exactly when the value is non-zero. */
  function RegistryMode(isWindows: bool, personalize: Option<map<string, int>>): (r: Option<ThemeMode>)
    ensures r.Some? <==> isWindows && personalize.Some? && AppsUseLightTheme in personalize.value
    ensures r.Some? ==> (r.value == Light <==> personalize.value[AppsUseLightTheme] != 0)
  {
    if isWindows && personalize.Some? && AppsUseLightTheme in personalize.value then
      Some(if personalize.value[AppsUseLightTheme] != 0 then Light else Dark)
    else None
  }

  /** get_current_mode: the registry when it answers, else the first
      descriptor's file; the fallback runs inside `except`, so its
      exceptions escape. */
  function GetCurrentMode(isWindows: bool, personalize: Option<map<string, int>>, files: Files,
                          codec: Codec, themes: seq<AppTheme>): (r: Result<ThemeMode>)
    ensures RegistryMode(isWindows, personalize).Some? ==> r == Ok(RegistryMode(isWindows, personalize).value)
    ensures RegistryMode(isWindows, personalize).None? ==> r == GetCurrentAppMode(files, codec, themes)
  {
    match RegistryMode(isWindows, personalize)
    case Some(m) => Ok(m)
    case None => GetCurrentAppMode(files, codec, themes)
  }

  /** The two values toggle_system_mode writes. */
  function SystemValues(values: map<string, int>, mode: ThemeMode): map<string, int> {
    values[AppsUseLightTheme := mode.Value()][SystemUsesLightTheme := mode.Value()]
  }

  /** toggle_system_mode: both entries get `mode.value`; a key that cannot
      be opened raises OSError, which nothing catches. The function only
      exists when `winreg` does. */
  method ToggleSystemMode(reg: Registry, mode: ThemeMode) returns (error: Option<Error>)
    requires reg.isWindows
    modifies reg
    ensures old(reg.personalize).None? ==> error == Some(OSError) && reg.personalize == old(reg.personalize)
    ensures old(reg.personalize).Some? ==>
              error == None && reg.personalize == Some(SystemValues(old(reg.personalize).value, mode))
  {
    if reg.personalize.None? {
      return Some(OSError);
    }
    var values := reg.personalize.value;
    values := values[AppsUseLightTheme := mode.Value()];
    values := values[SystemUsesLightTheme := mode.Value()];
    reg.personalize := Some(values);
    error := None;
  }

  /** After the system write, detection reads back the mode written, and
      the two entries agree. */
  lemma SystemRoundTrip(values: map<string, int>, mode: ThemeMode, files: Files, codec: Codec, themes: seq<AppTheme>)
    ensures GetCurrentMode(true, Some(SystemValues(values, mode)), files, codec, themes) == Ok(mode)
    ensures SystemValues(values, mode)[AppsUseLightTheme] == SystemValues(values, mode)[SystemUsesLightTheme] == mode.Value()
    ensures forall k :: k in values && k != AppsUseLightTheme && k != SystemUsesLightTheme ==> SystemValues(values, mode)[k] == values[k]
  {
  }

  /** The files after a run of the loop, and the exception that ended it. */
  datatype Run = Run(files: Files, escaped: Option<Error>)

  /** The `for theme in THEMES` loop with the one toggled mode: each
      descriptor's adapter in list order, until an exception escapes one. */
  function RunCallbacks(files: Files, codec: Codec, themes: seq<AppTheme>, mode: ThemeMode): (r: Run)
    ensures r.escaped.Some? ==> r.escaped.value == OSError
    decreases |themes|
  {
    if themes == [] then Run(files, None)
    else
      var prev := RunCallbacks(files, codec, themes[..|themes| - 1], mode);
      if prev.escaped.Some? then prev
      else
        var e := ApplyEffect(prev.files, codec, themes[|themes| - 1], mode);
        Run(e.files, if e.outcome.Escaped? then Some(e.outcome.error) else None)
  }

  /** The loop creates or removes no path, and the only exception that can
      escape it is the OSError of a path probe. */
  lemma {:induction false} RunCallbacksPaths(files: Files, codec: Codec, themes: seq<AppTheme>, mode: ThemeMode)
    ensures RunCallbacks(files, codec, themes, mode).files.Keys == files.Keys
    ensures RunCallbacks(files, codec, themes, mode).escaped.Some? ==>
              RunCallbacks(files, codec, themes, mode).escaped.value == OSError
    decreases |themes|
  {
    if themes != [] {
      RunCallbacksPaths(files, codec, themes[..|themes| - 1], mode);
    }
  }

  /** One more descriptor after a prefix that did not raise. */
  lemma RunStep(files: Files, codec: Codec, themes: seq<AppTheme>, i: nat, mode: ThemeMode)
    requires i < |themes|
    requires RunCallbacks(files, codec, themes[..i], mode).escaped == None
    ensures var e := ApplyEffect(RunCallbacks(files, codec, themes[..i], mode).files, codec, themes[i], mode);
            RunCallbacks(files, codec, themes[..i + 1], mode) == Run(e.files, if e.outcome.Escaped? then Some(e.outcome.error) else None)
  {
    assert themes[..i + 1][..i] == themes[..i];
  }

  /** Once an adapter has raised, the later descriptors are not reached. */
  lemma {:induction false} EscapeStops(files: Files, codec: Codec, themes: seq<AppTheme>, n: nat, mode: ThemeMode)
    requires n <= |themes|
    requires RunCallbacks(files, codec, themes[..n], mode).escaped.Some?
    ensures RunCallbacks(files, codec, themes, mode) == RunCallbacks(files, codec, themes[..n], mode)
    decreases |themes| - n
  {
    if n < |themes| {
      var m := |themes| - 1;
      assert themes[..m][..n] == themes[..n];
      EscapeStops(files, codec, themes[..m], n, mode);
    } else {
      assert themes[..n] == themes;
    }
  }

  /** When no path is unopenable, no adapter raises, so every descriptor is
      reached whatever fails on the way: each adapter catches its own
      failures, and none of them makes a path unopenable. */
  lemma {:induction false} NoEscapeWhenOpenable(files: Files, codec: Codec, themes: seq<AppTheme>, mode: ThemeMode)
    requires AllOpenable(files)
    ensures RunCallbacks(files, codec, themes, mode).escaped == None
    ensures AllOpenable(RunCallbacks(files, codec, themes, mode).files)
    decreases |themes|
  {
    if themes != [] {
      var prev := RunCallbacks(files, codec, themes[..|themes| - 1], mode);
      NoEscapeWhenOpenable(files, codec, themes[..|themes| - 1], mode);
      var t := themes[|themes| - 1];
      var e := ApplyEffect(prev.files, codec, t, mode);
      assert Target(prev.files, t).Ok?;
      if e.outcome.Done? {
        assert RewritesOnly(prev.files, e.files, Target(prev.files, t).value);
      }
    }
  }

  /** As written: a first descriptor whose primary path fails to open with
      an error other than FileNotFoundError ends the loop with that error,
      and no later descriptor is reached, whatever its own files hold. */
  lemma ProbeErrorStopsLoop(files: Files, codec: Codec, t: AppTheme, rest: seq<AppTheme>, mode: ThemeMode)
    requires Open(files, t.path) == Err(OSError)
    ensures RunCallbacks(files, codec, [t] + rest, mode) == Run(files, Some(OSError))
  {
    var themes := [t] + rest;
    assert themes[..1] == [t];
    assert themes[..1][..0] == [];
    EscapeStops(files, codec, themes, 1, mode);
  }

  /** The loop over adapters whose probe errors are caught: nothing
      escapes, for any files, and no path is created or removed. */
  function RunGuarded(files: Files, codec: Codec, themes: seq<AppTheme>, mode: ThemeMode): (r: Run)
    ensures r.escaped == None
    ensures r.files.Keys == files.Keys
    decreases |themes|
  {
    if themes == [] then Run(files, None)
    else
      var prev := RunGuarded(files, codec, themes[..|themes| - 1], mode);
      Run(GuardedEffect(prev.files, codec, themes[|themes| - 1], mode).files, None)
  }

  /** Corrected: a first descriptor whose probe fails is skipped, and the
      later descriptors run exactly as they would without it. */
  lemma {:induction false} GuardedSkipsProbeError(files: Files, codec: Codec, t: AppTheme, rest: seq<AppTheme>, mode: ThemeMode)
    requires Target(files, t).Err?
    ensures RunGuarded(files, codec, [t] + rest, mode) == RunGuarded(files, codec, rest, mode)
    decreases |rest|
  {
    if rest == [] {
      assert ([t] + rest)[..0] == [];
      assert GuardedEffect(files, codec, t, mode).files == files;
    } else {
      var n := |rest| - 1;
      GuardedSkipsProbeError(files, codec, t, rest[..n], mode);
      GuardedConsStep(files, codec, t, rest, mode);
    }
  }

  /** In `[t] + rest`, the last descriptor is the last of `rest` and runs
      on the files the ones before it left. */
  lemma GuardedConsStep(files: Files, codec: Codec, t: AppTheme, rest: seq<AppTheme>, mode: ThemeMode)
    requires rest != []
    ensures var prev := RunGuarded(files, codec, [t] + rest[..|rest| - 1], mode);
            RunGuarded(files, codec, [t] + rest, mode)
            == Run(GuardedEffect(prev.files, codec, rest[|rest| - 1], mode).files, None)
  {
    var themes := [t] + rest;
    var n := |rest| - 1;
    assert |themes| - 1 == |rest|;
    assert themes[..|rest|] == [t] + rest[..n];
    assert themes[|rest|] == rest[n];
  }

  /** Corrected: wherever the loop as written does not raise, the guarded
      loop leaves the same files. */
  lemma {:induction false} GuardedMatchesLoop(files: Files, codec: Codec, themes: seq<AppTheme>, mode: ThemeMode)
    ensures RunCallbacks(files, codec, themes, mode).escaped == None ==>
              RunGuarded(files, codec, themes, mode) == RunCallbacks(files, codec, themes, mode)
    decreases |themes|
  {
    if themes != [] && RunCallbacks(files, codec, themes, mode).escaped == None {
      var init := themes[..|themes| - 1];
      assert RunCallbacks(files, codec, init, mode).escaped == None;
      GuardedMatchesLoop(files, codec, init, mode);
    }
  }

  /** The state after the loop and the system write, given the state before. */
  ghost predicate Toggled(codec: Codec, files0: Files, personalize0: Option<map<string, int>>,
                          fs: FileSystem, reg: Registry, themes: seq<AppTheme>, toggled: ThemeMode,
                          error: Option<Error>)
    reads fs, reg, themes
  {
    var run := RunCallbacks(files0, codec, themes, toggled);
    && fs.files == run.files
    && (run.escaped.Some? ==> error == run.escaped && reg.personalize == personalize0)
    && (run.escaped.None? ==>
          && (forall t :: t in themes ==> t.mode == toggled)
          && (!reg.isWindows ==> error == None && reg.personalize == personalize0)
          && (reg.isWindows && personalize0.None? ==> error == Some(OSError) && reg.personalize == personalize0)
          && (reg.isWindows && personalize0.Some? ==>
                error == None && reg.personalize == Some(SystemValues(personalize0.value, toggled))))
  }

  /** One turn of the loop: `theme.mode = toggled_mode`, then the adapter. */
  method ToggleOne(fs: FileSystem, codec: Codec, theme: AppTheme, toggled: ThemeMode) returns (outcome: Outcome)
    modifies fs, theme
    ensures theme.mode == toggled
    ensures Effect(fs.files, outcome) == ApplyEffect(old(fs.files), codec, theme, toggled)
  {
    theme.mode := toggled;
    outcome := Apply(fs, codec, theme);
  }

  /** The `for theme in THEMES` loop: every descriptor gets the toggled
      mode just before its adapter runs, in list order, until one raises. */
  method RunAll(fs: FileSystem, codec: Codec, themes: seq<AppTheme>, toggled: ThemeMode)
    returns (escaped: Option<Error>)
    modifies fs, themes
    ensures Run(fs.files, escaped) == RunCallbacks(old(fs.files), codec, themes, toggled)
    ensures escaped.None? ==> forall t :: t in themes ==> t.mode == toggled
    ensures forall t :: t in themes ==> t.mode == toggled || t.mode == old(t.mode)
  {
    var i := 0;
    while i < |themes|
      invariant 0 <= i <= |themes|
      invariant RunCallbacks(old(fs.files), codec, themes[..i], toggled) == Run(fs.files, None)
      invariant forall j :: 0 <= j < i ==> themes[j].mode == toggled
      invariant forall j :: i <= j < |themes| ==> themes[j].mode == toggled || themes[j].mode == old(themes[j].mode)
    {
      var outcome := ToggleOne(fs, codec, themes[i], toggled);
      RunStep(old(fs.files), codec, themes, i, toggled);
      if outcome.Escaped? {
        EscapeStops(old(fs.files), codec, themes, i + 1, toggled);
        return Some(outcome.error);
      }
      i := i + 1;
    }
    assert themes[..i] == themes;
    escaped := None;
  }

  /** The body of `main` after the mode is known: the loop, then the system
      write, which comes after all the adapters and on Windows only. */
  method ApplyToggledMode(fs: FileSystem, codec: Codec, reg: Registry, themes: seq<AppTheme>, toggled: ThemeMode)
    returns (error: Option<Error>)
    modifies fs, reg, themes
    ensures Toggled(codec, old(fs.files), old(reg.personalize), fs, reg, themes, toggled, error)
    ensures forall t :: t in themes ==> t.mode == toggled || t.mode == old(t.mode)
  {
    error := RunAll(fs, codec, themes, toggled);
    if error.None? && reg.isWindows {
      error := ToggleSystemMode(reg, toggled);
    }
  }

  /** main: mode detection, then the toggled mode for every descriptor. An
      exception of the detection ends the run before anything is written. */
  method ToggleThemes(fs: FileSystem, codec: Codec, reg: Registry, themes: seq<AppTheme>) returns (error: Option<Error>)
    modifies fs, reg, themes
    ensures var current := GetCurrentMode(reg.isWindows, old(reg.personalize), old(fs.files), codec, themes);
            && (current.Err? ==> error == Some(current.error) && fs.files == old(fs.files)
                                 && reg.personalize == old(reg.personalize))
            && (current.Ok? ==>
                  Toggled(codec, old(fs.files), old(reg.personalize), fs, reg, themes, GetToggledMode(current.value), error))
  {
    var current := GetCurrentMode(reg.isWindows, reg.personalize, fs.files, codec, themes);
    if current.Err? {
      return Some(current.error);
    }
    var toggledMode := GetToggledMode(current.value);
    error := ApplyToggledMode(fs, codec, reg, themes, toggledMode);
  }
}
