/** The pooled revision of the driver: each descriptor is handled by a
    wrapper that sets the toggled mode, prints an attribute read from the
    descriptor, and runs the adapter inside a `try` that swallows any
    exception. The pool is modelled as a loop over the descriptors in list
    order, which the result tuple preserves. */
module PoolRevision {
  import opened Results
  import opened Json
  import opened Disk
  import opened Theme
  import opened Callback
  import opened ThemeToggler

  /** The attributes an AppTheme instance has: its dataclass fields, the
      `modes` class attribute and the `names` property. */
  const AppThemeAttributes: set<string> :=
    {"option", "keys", "light_name", "dark_name", "path", "windows_path",
     "toggle_callback", "mode", "settings_delimiter", "modes", "names"}

  /** The attribute the wrapper's first print reads, as written. */
  const AsWrittenLabel := "app_name"
  /** The attribute that names the application. */
  const CorrectedLabel := "option"

  /** The wrapper for one descriptor whose messages read attribute
      `attribute`: the mode is set first; a missing attribute raises
      AttributeError at the print before the `try`, so the adapter does
      not run; otherwise the adapter runs and whatever it raises is caught. */
  function WrapperEffect(attribute: string, files: Files, codec: Codec, t: AppTheme, toggled: ThemeMode): (r: Run)
    ensures attribute !in AppThemeAttributes ==> r == Run(files, Some(AttributeError))
    ensures attribute in AppThemeAttributes ==> r.escaped == None
  {
    if attribute !in AppThemeAttributes then Run(files, Some(AttributeError))
    else Run(ApplyEffect(files, codec, t, toggled).files, None)
  }

  /** As written, the wrapper raises AttributeError for every descriptor
      before its adapter is reached, so no file is ever changed. */
  lemma AsWrittenNeverRuns(files: Files, codec: Codec, t: AppTheme, toggled: ThemeMode)
    ensures WrapperEffect(AsWrittenLabel, files, codec, t, toggled) == Run(files, Some(AttributeError))
  {
    assert AsWrittenLabel !in AppThemeAttributes;
  }

  /** With an attribute the descriptor has, the wrapper runs the adapter with
      the toggled mode and nothing escapes it, even an error of the path
      probe. */
  lemma CorrectedRunsCallback(files: Files, codec: Codec, t: AppTheme, toggled: ThemeMode)
    ensures WrapperEffect(CorrectedLabel, files, codec, t, toggled) == Run(ApplyEffect(files, codec, t, toggled).files, None)
  {
    assert CorrectedLabel in AppThemeAttributes;
  }

  /** toggle_theme_mode(toggled)(theme). */
  method Wrapper(fs: FileSystem, codec: Codec, theme: AppTheme, toggled: ThemeMode, attribute: string)
    returns (escaped: Option<Error>)
    modifies fs, theme
    ensures theme.mode == toggled
    ensures Run(fs.files, escaped) == WrapperEffect(attribute, old(fs.files), codec, theme, toggled)
  {
    theme.mode := toggled;
    if attribute !in AppThemeAttributes {
      return Some(AttributeError);
    }
    var outcome := Apply(fs, codec, theme);
    escaped := None;
  }

  /** Every wrapper runs, one per descriptor in order; collecting the
      results re-raises the first exception any of them raised. */
  function PoolRun(attribute: string, files: Files, codec: Codec, themes: seq<AppTheme>, toggled: ThemeMode): (r: Run)
    ensures r.files.Keys == files.Keys
    ensures attribute in AppThemeAttributes ==> r.escaped == None
    ensures attribute !in AppThemeAttributes ==> r.files == files && (r.escaped.Some? <==> themes != [])
    decreases |themes|
  {
    if themes == [] then Run(files, None)
    else
      var prev := PoolRun(attribute, files, codec, themes[..|themes| - 1], toggled);
      var step := WrapperEffect(attribute, prev.files, codec, themes[|themes| - 1], toggled);
      Run(step.files, if prev.escaped.Some? then prev.escaped else step.escaped)
  }

  /** As written, the pooled run changes no file and, for any non-empty
      list, ends with AttributeError. */
  lemma {:induction false} PoolAsWritten(files: Files, codec: Codec, themes: seq<AppTheme>, toggled: ThemeMode)
    ensures PoolRun(AsWrittenLabel, files, codec, themes, toggled)
            == Run(files, if themes == [] then None else Some(AttributeError))
    decreases |themes|
  {
    if themes != [] {
      PoolAsWritten(files, codec, themes[..|themes| - 1], toggled);
      AsWrittenNeverRuns(files, codec, themes[|themes| - 1], toggled);
    }
  }

  /** Corrected, the pooled run never raises, and whenever the sequential
      loop of the driver reaches every descriptor, the two leave the same
      files. */
  lemma {:induction false} PoolCorrectedMatchesLoop(files: Files, codec: Codec, themes: seq<AppTheme>, toggled: ThemeMode)
    ensures PoolRun(CorrectedLabel, files, codec, themes, toggled).escaped == None
    ensures RunCallbacks(files, codec, themes, toggled).escaped == None ==>
              PoolRun(CorrectedLabel, files, codec, themes, toggled) == RunCallbacks(files, codec, themes, toggled)
    decreases |themes|
  {
    if themes != [] {
      var init := themes[..|themes| - 1];
      var t := themes[|themes| - 1];
      PoolCorrectedMatchesLoop(files, codec, init, toggled);
      var prev := PoolRun(CorrectedLabel, files, codec, init, toggled);
      CorrectedRunsCallback(prev.files, codec, t, toggled);
      if RunCallbacks(files, codec, themes, toggled).escaped == None {
        assert RunCallbacks(files, codec, init, toggled).escaped == None;
      }
    }
  }

  /** Corrected, the pooled run is the loop over guarded adapters: the
      wrapper's `try` is what catches a probe error. */
  lemma {:induction false} PoolCorrectedIsGuarded(files: Files, codec: Codec, themes: seq<AppTheme>, toggled: ThemeMode)
    ensures PoolRun(CorrectedLabel, files, codec, themes, toggled) == RunGuarded(files, codec, themes, toggled)
    decreases |themes|
  {
    if themes != [] {
      var init := themes[..|themes| - 1];
      PoolCorrectedIsGuarded(files, codec, init, toggled);
      CorrectedRunsCallback(PoolRun(CorrectedLabel, files, codec, init, toggled).files, codec, themes[|themes| - 1], toggled);
    }
  }

  /** The pooled loop of `main`, given the toggled mode: every descriptor
      ends with the toggled mode, whatever the wrappers raise. */
  method PoolMain(fs: FileSystem, codec: Codec, themes: seq<AppTheme>, toggled: ThemeMode, attribute: string)
    returns (escaped: Option<Error>)
    modifies fs, themes
    ensures Run(fs.files, escaped) == PoolRun(attribute, old(fs.files), codec, themes, toggled)
    ensures forall t :: t in themes ==> t.mode == toggled
  {
    escaped := None;
    for i := 0 to |themes|
      invariant Run(fs.files, escaped) == PoolRun(attribute, old(fs.files), codec, themes[..i], toggled)
      invariant forall j :: 0 <= j < i ==> themes[j].mode == toggled
    {
      var raised := Wrapper(fs, codec, themes[i], toggled, attribute);
      if escaped.None? {
        escaped := raised;
      }
      assert themes[..i + 1][..i] == themes[..i];
    }
    assert themes[..|themes|] == themes;
  }
}
