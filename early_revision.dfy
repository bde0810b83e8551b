/** The earliest revision of the program: the mode comes from the command
    line, and each adapter flips the theme from what the file holds rather
    than writing a given mode. Its adapters truncate or rewrite the file in
    cases the later adapters leave it alone. */
module EarlyRevision {
  import opened Results
  import opened PyStr
  import opened Json
  import opened Disk
  import opened Theme
  import Callback

  /** What `theme.mode` holds: a ThemeMode member, or the raw command-line
      string that `main` assigns when it names a mode. */
  datatype ModeValue = Member(mode: ThemeMode) | Raw(text: string)

  const DefaultMode: ModeValue := Member(Dark)

  /** The mode `main` hands to every descriptor: the first argument when it
      names a mode (kept as the string itself), else DEFAULT_MODE. */
  function SelectMode(args: seq<string>): (m: ModeValue)
    ensures |args| > 0 && (args[0] == "dark" || args[0] == "light") ==> m == Raw(args[0])
    ensures !(|args| > 0 && (args[0] == "dark" || args[0] == "light")) ==> m == DefaultMode
  {
    var mode := if |args| > 0 then Raw(args[0]) else DefaultMode;
    if mode.Member? || mode.text == "dark" || mode.text == "light" then mode else DefaultMode
  }

  /** `ThemeMode.light if theme.mode is ThemeMode.dark else ThemeMode.dark`:
      only the dark member itself is `is ThemeMode.dark`, so a raw string,
      even "dark", flips to dark. */
  function Flipped(m: ModeValue): (r: ModeValue)
    ensures r.Member?
    ensures r.mode == Light <==> m == Member(Dark)
  {
    Member(if m.Member? && m.mode == Dark then Light else Dark)
  }

  /** The adapter a descriptor's `toggle_callback` names. */
  datatype EarlyAdapter = ToggleVscodeTheme | ToggleTerminalTheme

  /** ApplicationTheme of this revision: one path only, the key in
      `settings_name`, the mode dark unless given. */
  class ApplicationTheme {
    const option: string
    const settingsName: string
    const lightName: string
    const darkName: string
    const path: string
    const toggleCallback: EarlyAdapter
    var mode: ModeValue
    const settingsDelimiter: string

    constructor (option: string, settingsName: string, lightName: string, darkName: string,
                 path: string, toggleCallback: EarlyAdapter,
                 mode: ModeValue := DefaultMode, settingsDelimiter: string := ":")
      ensures this.option == option && this.settingsName == settingsName
      ensures this.lightName == lightName && this.darkName == darkName
      ensures this.path == path && this.toggleCallback == toggleCallback
      ensures this.mode == mode && this.settingsDelimiter == settingsDelimiter
    {
      this.option := option;
      this.settingsName := settingsName;
      this.lightName := lightName;
      this.darkName := darkName;
      this.path := path;
      this.toggleCallback := toggleCallback;
      this.mode := mode;
      this.settingsDelimiter := settingsDelimiter;
    }
  }

  /** The files, the descriptor's mode and the outcome after one adapter call. */
  datatype Flip = Flip(files: Files, mode: ModeValue, outcome: Outcome)

  /** The name the JSON toggle writes: light exactly when dark is stored. */
  function OppositeName(t: ApplicationTheme, stored: Value): (name: string)
    ensures stored == Str(t.darkName) ==> name == t.lightName
    ensures stored != Str(t.darkName) ==> name == t.darkName
  {
    if stored == Str(t.darkName) then t.lightName else t.darkName
  }

  // ---------------------------------------------------------------------
  // toggle_vscode_theme

  /** toggle_vscode_theme: the file is truncated right after it decodes,
      before the key is looked up, so a missing key (or a non-object
      document) leaves it empty. */
  function VscodeToggle(files: Files, codec: Codec, t: ApplicationTheme, mode: ModeValue): (r: Flip)
    ensures r.outcome.Escaped? == false
    ensures r.outcome.Done? ==> r.mode == Flipped(mode)
    ensures !r.outcome.Done? ==> r.mode == mode
    ensures Open(files, t.path).Err? || codec.load(Open(files, t.path).value).None? ==> r.files == files
    ensures (Open(files, t.path).Ok? && codec.load(Open(files, t.path).value).Some? && !r.outcome.Done?)
              ==> r.files == files[t.path := Contents("")]
    ensures r.outcome.Done? ==> Callback.RewritesOnly(files, r.files, t.path)
    ensures r.outcome.Done? <==> var fields := Callback.LoadObject(files, codec, t.path);
                                 fields.Some? && t.settingsName in fields.value
    ensures r.outcome.Done? ==>
              r.outcome.name == OppositeName(t, Callback.LoadObject(files, codec, t.path).value[t.settingsName])
  {
    match Open(files, t.path)
    case Err(e) => Flip(files, mode, Caught(e))
    case Ok(text) =>
      match codec.load(text)
      case None => Flip(files, mode, Caught(JSONDecodeError))
      case Some(settings) =>
        var truncated := files[t.path := Contents("")];
        if !settings.Object? then Flip(truncated, mode, Caught(TypeError))
        else if t.settingsName !in settings.fields then Flip(truncated, mode, Caught(KeyError))
        else
          var newName := OppositeName(t, settings.fields[t.settingsName]);
          var written := Object(settings.fields[t.settingsName := Str(newName)]);
          Flip(files[t.path := Contents(codec.dump(written))], Flipped(mode), Done(newName))
  }

  /** The mode the descriptor holds plays no part in what is written. */
  lemma VscodeToggleIgnoresMode(files: Files, codec: Codec, t: ApplicationTheme, m1: ModeValue, m2: ModeValue)
    ensures VscodeToggle(files, codec, t, m1).files == VscodeToggle(files, codec, t, m2).files
    ensures VscodeToggle(files, codec, t, m1).outcome == VscodeToggle(files, codec, t, m2).outcome
  {
  }

  /** After a successful toggle, reading the file back gives the object as
      it was with the key set to the opposite of the stored name. */
  lemma VscodeToggleStores(files: Files, codec: Codec, t: ApplicationTheme, mode: ModeValue)
    requires ReadsBack(codec)
    requires VscodeToggle(files, codec, t, mode).outcome.Done?
    ensures var before := Callback.LoadObject(files, codec, t.path).value;
            Callback.LoadObject(VscodeToggle(files, codec, t, mode).files, codec, t.path)
            == Some(before[t.settingsName := Str(OppositeName(t, before[t.settingsName]))])
  {
    var before := Callback.LoadObject(files, codec, t.path).value;
    var written := Object(before[t.settingsName := Str(OppositeName(t, before[t.settingsName]))]);
    assert VscodeToggle(files, codec, t, mode).files == files[t.path := Contents(codec.dump(written))];
    assert codec.load(codec.dump(written)) == Some(written);
  }

  /** Toggling twice puts back a stored dark or light name, and the other
      keys keep their values. */
  lemma VscodeToggleTwice(files: Files, codec: Codec, t: ApplicationTheme, mode: ModeValue)
    requires ReadsBack(codec) && t.lightName != t.darkName
    requires var fields := Callback.LoadObject(files, codec, t.path);
             fields.Some? && t.settingsName in fields.value
             && fields.value[t.settingsName] in {Str(t.darkName), Str(t.lightName)}
    ensures var once := VscodeToggle(files, codec, t, mode);
            var twice := VscodeToggle(once.files, codec, t, once.mode);
            && twice.outcome.Done?
            && Callback.LoadObject(twice.files, codec, t.path) == Callback.LoadObject(files, codec, t.path)
  {
    var fields := Callback.LoadObject(files, codec, t.path).value;
    var stored := fields[t.settingsName];
    var first := Object(fields[t.settingsName := Str(OppositeName(t, stored))]);
    var once := VscodeToggle(files, codec, t, mode);
    assert once.files == files[t.path := Contents(codec.dump(first))];
    assert codec.load(codec.dump(first)) == Some(first);
    assert Callback.LoadObject(once.files, codec, t.path) == Some(first.fields);
    var second := Object(first.fields[t.settingsName := Str(OppositeName(t, Str(OppositeName(t, stored))))]);
    assert OppositeName(t, Str(OppositeName(t, stored))) == stored.s;
    assert second.fields == fields;
    assert codec.load(codec.dump(second)) == Some(second);
  }

  method ToggleVscodeThemeStep(fs: FileSystem, codec: Codec, theme: ApplicationTheme) returns (outcome: Outcome)
    modifies fs, theme
    ensures Flip(fs.files, theme.mode, outcome) == VscodeToggle(old(fs.files), codec, theme, old(theme.mode))
  {
    var handle := Open(fs.files, theme.path);
    if handle.Err? {
      return Caught(handle.error);
    }
    var loaded := codec.load(handle.value);
    if loaded.None? {
      return Caught(JSONDecodeError);
    }
    fs.files := fs.files[theme.path := Contents("")];
    if !loaded.value.Object? {
      return Caught(TypeError);
    }
    var settings := loaded.value.fields;
    if theme.settingsName !in settings {
      return Caught(KeyError);
    }
    var currentThemeName := settings[theme.settingsName];
    var newThemeName := OppositeName(theme, currentThemeName);
    theme.mode := Flipped(theme.mode);
    settings := settings[theme.settingsName := Str(newThemeName)];
    fs.files := fs.files[theme.path := Contents(codec.dump(Object(settings)))];
    outcome := Done(newThemeName);
  }

  // ---------------------------------------------------------------------
  // toggle_terminal_theme

  /** What the early scan looks for: the bare key and the two names. */
  datatype EarlyLookup = EarlyLookup(key: string, lightName: string, darkName: string)

  /** `current_theme_name`: light if it occurs in the line, else dark. */
  function EarlyCurrent(lk: EarlyLookup, line: string): string {
    if Contains(line, lk.lightName) then lk.lightName else lk.darkName
  }

  /** `new_theme_name`: light exactly when the current name is dark. */
  function EarlyNew(lk: EarlyLookup, current: string): string {
    if current == lk.darkName then lk.lightName else lk.darkName
  }

  /** The loop's variables: lines written, `current_theme_name`, and
      `new_theme_name` (None while it is unbound). */
  datatype EarlyScanned = EarlyScanned(out: seq<string>, current: string, newName: Option<string>)

  /** One turn of the loop: any line with the key, names or not. */
  function EarlyStep(lk: EarlyLookup, acc: EarlyScanned, line: string): EarlyScanned {
    if Contains(line, lk.key) && acc.current == "" then
      var current := EarlyCurrent(lk, line);
      var newName := EarlyNew(lk, current);
      EarlyScanned(acc.out + [Replace(line, current, newName)], current, Some(newName))
    else
      EarlyScanned(acc.out + [line], acc.current, acc.newName)
  }

  function EarlyScan(lk: EarlyLookup, lines: seq<string>): (r: EarlyScanned)
    ensures |r.out| == |lines|
    decreases |lines|
  {
    if lines == [] then EarlyScanned([], "", None)
    else EarlyStep(lk, EarlyScan(lk, lines[..|lines| - 1]), lines[|lines| - 1])
  }

  /** A line holds the bare key. */
  predicate HasKey(lk: EarlyLookup, line: string) {
    Contains(line, lk.key)
  }

  /** The edit applied to a line: its current name becomes the other one. */
  function EarlyRewrite(lk: EarlyLookup, line: string): string {
    Replace(line, EarlyCurrent(lk, line), EarlyNew(lk, EarlyCurrent(lk, line)))
  }

  /** Line `k` is the first to hold the key. */
  predicate FirstKeyLine(lk: EarlyLookup, lines: seq<string>, k: int)
    requires 0 <= k < |lines|
  {
    HasKey(lk, lines[k]) && forall j :: 0 <= j < k ==> !HasKey(lk, lines[j])
  }

  /** Line `k` of the early scan: with both names non-empty, it is edited
      exactly when it is the first line holding the key. */
  lemma {:induction false} EarlyScanLineAt(lk: EarlyLookup, lines: seq<string>, k: nat)
    requires lk.lightName != "" && lk.darkName != ""
    requires k < |lines|
    ensures EarlyScan(lk, lines).out[k] == if FirstKeyLine(lk, lines, k) then EarlyRewrite(lk, lines[k]) else lines[k]
    decreases |lines|
  {
    var n := |lines| - 1;
    var init := lines[..n];
    var acc := EarlyScan(lk, init);
    assert EarlyScan(lk, lines) == EarlyStep(lk, acc, lines[n]);
    assert forall j :: 0 <= j < n ==> init[j] == lines[j];
    if k < n {
      EarlyScanLineAt(lk, init, k);
      assert FirstKeyLine(lk, init, k) <==> FirstKeyLine(lk, lines, k);
    } else {
      EarlyScanFound(lk, init);
      if acc.current != "" {
        var m :| 0 <= m < n && FirstKeyLine(lk, init, m)
                 && acc.newName == Some(EarlyNew(lk, EarlyCurrent(lk, init[m])));
        assert HasKey(lk, lines[m]);
      }
    }
  }

  /** With both names non-empty, the first line holding the key is the one
      edited, whether or not it holds a name, and every other line is
      copied. */
  lemma EarlyScanLines(lk: EarlyLookup, lines: seq<string>)
    requires lk.lightName != "" && lk.darkName != ""
    ensures |EarlyScan(lk, lines).out| == |lines|
    ensures forall k :: 0 <= k < |lines| ==>
              EarlyScan(lk, lines).out[k] == if FirstKeyLine(lk, lines, k) then EarlyRewrite(lk, lines[k]) else lines[k]
  {
    forall k | 0 <= k < |lines|
      ensures EarlyScan(lk, lines).out[k] == if FirstKeyLine(lk, lines, k) then EarlyRewrite(lk, lines[k]) else lines[k]
    {
      EarlyScanLineAt(lk, lines, k);
    }
  }

  /** With both names non-empty, `new_theme_name` is bound exactly when
      some line holds the key, and then to the first such line's new name. */
  lemma {:induction false} EarlyScanFound(lk: EarlyLookup, lines: seq<string>)
    requires lk.lightName != "" && lk.darkName != ""
    ensures EarlyScan(lk, lines).current == "" <==> forall k :: 0 <= k < |lines| ==> !HasKey(lk, lines[k])
    ensures EarlyScan(lk, lines).newName.None? <==> EarlyScan(lk, lines).current == ""
    ensures EarlyScan(lk, lines).newName.Some? ==>
              exists k :: 0 <= k < |lines| && FirstKeyLine(lk, lines, k)
                          && EarlyScan(lk, lines).newName == Some(EarlyNew(lk, EarlyCurrent(lk, lines[k])))
    decreases |lines|
  {
    if lines != [] {
      var n := |lines| - 1;
      var init := lines[..n];
      var line := lines[n];
      EarlyScanFound(lk, init);
      var acc := EarlyScan(lk, init);
      assert EarlyScan(lk, lines) == EarlyStep(lk, acc, line);
      assert forall k :: 0 <= k < n ==> init[k] == lines[k];
      if acc.current == "" {
        if HasKey(lk, line) {
          assert FirstKeyLine(lk, lines, n);
        }
      } else {
        var k :| 0 <= k < n && FirstKeyLine(lk, init, k)
                 && acc.newName == Some(EarlyNew(lk, EarlyCurrent(lk, init[k])));
        assert HasKey(lk, lines[k]);
        assert FirstKeyLine(lk, lines, k);
      }
    }
  }

  /** With no line holding the key every line is copied and
      `current_theme_name` and `new_theme_name` keep their initial values,
      whatever the names are. */
  lemma {:induction false} EarlyNoKey(lk: EarlyLookup, lines: seq<string>)
    requires forall k :: 0 <= k < |lines| ==> !HasKey(lk, lines[k])
    ensures EarlyScan(lk, lines).out == lines
    ensures EarlyScan(lk, lines).current == ""
    ensures EarlyScan(lk, lines).newName == None
    decreases |lines|
  {
    if lines != [] {
      var n := |lines| - 1;
      assert forall k :: 0 <= k < n ==> lines[..n][k] == lines[k];
      EarlyNoKey(lk, lines[..n]);
      assert !HasKey(lk, lines[n]);
      assert lines[..n] + [lines[n]] == lines;
    }
  }

  /** toggle_terminal_theme: the file is always written back and the mode
      always flipped; with no key line the print of the unbound
      `new_theme_name` raises NameError, which is caught. */
  function TerminalToggle(files: Files, t: ApplicationTheme, mode: ModeValue): (r: Flip)
    ensures r.outcome.Escaped? == false
    ensures Open(files, t.path).Err? ==> r == Flip(files, mode, Caught(Open(files, t.path).error))
    ensures Open(files, t.path).Ok? ==> r.mode == Flipped(mode) && Callback.RewritesOnly(files, r.files, t.path)
  {
    match Open(files, t.path)
    case Err(e) => Flip(files, mode, Caught(e))
    case Ok(text) =>
      var lk := EarlyLookup(LastSegment(t.settingsName, ":"), t.lightName, t.darkName);
      var s := EarlyScan(lk, SplitLines(text));
      Flip(files[t.path := Contents(Concat(s.out))], Flipped(mode),
             if s.newName.Some? then Done(s.newName.value) else Caught(NameError))
  }

  /** With no line holding the key the same text is written back, the mode
      is flipped all the same, and the NameError is caught. */
  lemma TerminalToggleNoKey(files: Files, t: ApplicationTheme, mode: ModeValue, text: string)
    requires Open(files, t.path) == Ok(text)
    requires forall line :: line in SplitLines(text) ==> !Contains(line, LastSegment(t.settingsName, ":"))
    ensures TerminalToggle(files, t, mode) == Flip(files, Flipped(mode), Caught(NameError))
  {
    var lk := EarlyLookup(LastSegment(t.settingsName, ":"), t.lightName, t.darkName);
    var lines := SplitLines(text);
    EarlyNoKey(lk, lines);
    assert files[t.path := Contents(text)] == files;
  }

  /** With both names non-empty and a line holding the key, the file is
      written back with only the first such line edited, the mode flips,
      and the first key line's new name is reported as set. */
  lemma TerminalToggleFirstKeyLine(files: Files, t: ApplicationTheme, mode: ModeValue, text: string, j: nat)
    requires t.lightName != "" && t.darkName != ""
    requires Open(files, t.path) == Ok(text)
    requires j < |SplitLines(text)|
    requires FirstKeyLine(EarlyLookup(LastSegment(t.settingsName, ":"), t.lightName, t.darkName), SplitLines(text), j)
    ensures var lk := EarlyLookup(LastSegment(t.settingsName, ":"), t.lightName, t.darkName);
            var lines := SplitLines(text);
            TerminalToggle(files, t, mode)
            == Flip(files[t.path := Contents(Concat(lines[j := EarlyRewrite(lk, lines[j])]))], Flipped(mode),
                    Done(EarlyNew(lk, EarlyCurrent(lk, lines[j]))))
  {
    EarlyScanFirstKey(EarlyLookup(LastSegment(t.settingsName, ":"), t.lightName, t.darkName), SplitLines(text), j);
  }

  /** The early scan with a first key line `j`: that line alone is edited
      and `new_theme_name` is its new name. */
  lemma EarlyScanFirstKey(lk: EarlyLookup, lines: seq<string>, j: nat)
    requires lk.lightName != "" && lk.darkName != ""
    requires j < |lines| && FirstKeyLine(lk, lines, j)
    ensures EarlyScan(lk, lines).out == lines[j := EarlyRewrite(lk, lines[j])]
    ensures EarlyScan(lk, lines).newName == Some(EarlyNew(lk, EarlyCurrent(lk, lines[j])))
  {
    EarlyScanLines(lk, lines);
    EarlyScanFound(lk, lines);
    var s := EarlyScan(lk, lines);
    assert s.out == lines[j := EarlyRewrite(lk, lines[j])];
    var k :| 0 <= k < |lines| && FirstKeyLine(lk, lines, k) && s.newName == Some(EarlyNew(lk, EarlyCurrent(lk, lines[k])));
    assert HasKey(lk, lines[j]) && HasKey(lk, lines[k]);
    assert k == j;
  }

  /** The revisions part ways on a file whose first key line names no theme
      and whose second names the dark one: the later adapter edits only the
      second line, while the early one spends its single edit on the first
      line, writes every line back unchanged, and still reports the light
      name as set. */
  lemma RevisionsDisagree(key: string, lightName: string, darkName: string, first: string, second: string)
    requires lightName != "" && darkName != "" && key != ""
    requires Contains(first, key) && !Contains(first, lightName) && !Contains(first, darkName)
    requires Contains(second, key) && Contains(second, darkName) && !Contains(second, lightName)
    ensures var later := Callback.Scan(Callback.Lookup(key, darkName, lightName, lightName), [first, second]);
            later.out == [first, Replace(second, darkName, lightName)]
    ensures var early := EarlyScan(EarlyLookup(key, lightName, darkName), [first, second]);
            early.out == [first, second] && early.newName == Some(lightName)
  {
    var lk := Callback.Lookup(key, darkName, lightName, lightName);
    assert !Callback.Qualifies(lk, first) && Callback.Qualifies(lk, second);
    Callback.FirstMatchRewritten(lk, [first, second], 1);
    var elk := EarlyLookup(key, lightName, darkName);
    EarlyScanLines(elk, [first, second]);
    EarlyScanFound(elk, [first, second]);
    assert FirstKeyLine(elk, [first, second], 0) && !FirstKeyLine(elk, [first, second], 1);
    assert EarlyCurrent(elk, first) == darkName;
    ReplaceAbsent(first, darkName, lightName);
  }

  /** The early loop, accumulating `settings_string`, `current_theme_name`
      and `new_theme_name`. */
  method EarlyScanSettings(lines: seq<string>, key: string, theme: ApplicationTheme)
    returns (settingsString: string, currentThemeName: string, newThemeName: Option<string>)
    ensures var s := EarlyScan(EarlyLookup(key, theme.lightName, theme.darkName), lines);
            settingsString == Concat(s.out) && currentThemeName == s.current && newThemeName == s.newName
  {
    ghost var lk := EarlyLookup(key, theme.lightName, theme.darkName);
    settingsString, currentThemeName, newThemeName := "", "", None;
    for i := 0 to |lines|
      invariant settingsString == Concat(EarlyScan(lk, lines[..i]).out)
      invariant currentThemeName == EarlyScan(lk, lines[..i]).current
      invariant newThemeName == EarlyScan(lk, lines[..i]).newName
    {
      var line := lines[i];
      if Contains(line, key) && currentThemeName == "" {
        currentThemeName := if Contains(line, theme.lightName) then theme.lightName else theme.darkName;
        var name := if currentThemeName == theme.darkName then theme.lightName else theme.darkName;
        newThemeName := Some(name);
        line := Replace(line, currentThemeName, name);
      }
      assert lines[..i + 1][..i] == lines[..i];
      ConcatSnoc(EarlyScan(lk, lines[..i]).out, line);
      settingsString := settingsString + line;
    }
    assert lines[..|lines|] == lines;
  }

  method ToggleTerminalThemeStep(fs: FileSystem, theme: ApplicationTheme) returns (outcome: Outcome)
    modifies fs, theme
    ensures Flip(fs.files, theme.mode, outcome) == TerminalToggle(old(fs.files), theme, old(theme.mode))
  {
    var handle := Open(fs.files, theme.path);
    if handle.Err? {
      return Caught(handle.error);
    }
    var key := LastSegment(theme.settingsName, ":");
    var settingsString, currentThemeName, newThemeName := EarlyScanSettings(SplitLines(handle.value), key, theme);
    fs.files := fs.files[theme.path := Contents(settingsString)];
    theme.mode := Flipped(theme.mode);
    outcome := if newThemeName.Some? then Done(newThemeName.value) else Caught(NameError);
  }

  // ---------------------------------------------------------------------
  // main

  /** Whether the named toggle flips the descriptor's mode: the JSON toggle
      when the file decodes to an object holding the key, the line toggle
      whenever the file opens. */
  predicate Flips(files: Files, codec: Codec, t: ApplicationTheme) {
    match t.toggleCallback
    case ToggleVscodeTheme =>
      var fields := Callback.LoadObject(files, codec, t.path);
      fields.Some? && t.settingsName in fields.value
    case ToggleTerminalTheme => Open(files, t.path).Ok?
  }

  /** `theme.toggle_callback(theme)`: the named toggle, which lets nothing
      out and either flips the mode it was given or leaves it. */
  function ToggleEffect(files: Files, codec: Codec, t: ApplicationTheme, mode: ModeValue): (r: Flip)
    ensures r.outcome.Escaped? == false
    ensures r.mode == if Flips(files, codec, t) then Flipped(mode) else mode
  {
    match t.toggleCallback
    case ToggleVscodeTheme => VscodeToggle(files, codec, t, mode)
    case ToggleTerminalTheme => TerminalToggle(files, t, mode)
  }

  /** The files after the loop, and each position's mode after its call. */
  datatype EarlyRun = EarlyRun(files: Files, modes: seq<ModeValue>)

  /** The loop of `main`: each descriptor gets the chosen mode and then its
      adapter runs, in list order; no adapter lets an exception out. */
  function RunToggles(files: Files, codec: Codec, themes: seq<ApplicationTheme>, chosen: ModeValue): (r: EarlyRun)
    ensures |r.modes| == |themes|
    decreases |themes|
  {
    if themes == [] then EarlyRun(files, [])
    else
      var prev := RunToggles(files, codec, themes[..|themes| - 1], chosen);
      var step := ToggleEffect(prev.files, codec, themes[|themes| - 1], chosen);
      EarlyRun(step.files, prev.modes + [step.mode])
  }

  /** Neither toggle reads the mode it is given to decide what to write. */
  lemma ToggleEffectIgnoresMode(files: Files, codec: Codec, t: ApplicationTheme, m1: ModeValue, m2: ModeValue)
    ensures ToggleEffect(files, codec, t, m1).files == ToggleEffect(files, codec, t, m2).files
    ensures ToggleEffect(files, codec, t, m1).outcome == ToggleEffect(files, codec, t, m2).outcome
  {
    if t.toggleCallback == ToggleVscodeTheme {
      VscodeToggleIgnoresMode(files, codec, t, m1, m2);
    }
  }

  /** The files the loop leaves do not depend on the mode `main` chose. */
  lemma {:induction false} RunTogglesIgnoresChosen(files: Files, codec: Codec, themes: seq<ApplicationTheme>,
                                                   m1: ModeValue, m2: ModeValue)
    ensures RunToggles(files, codec, themes, m1).files == RunToggles(files, codec, themes, m2).files
    decreases |themes|
  {
    if themes != [] {
      var init := themes[..|themes| - 1];
      RunTogglesIgnoresChosen(files, codec, init, m1, m2);
      ToggleEffectIgnoresMode(RunToggles(files, codec, init, m1).files, codec, themes[|themes| - 1], m1, m2);
    }
  }

  /** Position `j` ends with the chosen mode flipped exactly when its toggle,
      run on the files the earlier toggles left, flips it, and with the
      chosen mode itself otherwise. */
  lemma {:induction false} RunTogglesModes(files: Files, codec: Codec, themes: seq<ApplicationTheme>,
                                           chosen: ModeValue, j: nat)
    requires j < |themes|
    ensures RunToggles(files, codec, themes, chosen).modes[j]
            == if Flips(RunToggles(files, codec, themes[..j], chosen).files, codec, themes[j])
               then Flipped(chosen) else chosen
    decreases |themes|
  {
    var n := |themes| - 1;
    var init := themes[..n];
    var prev := RunToggles(files, codec, init, chosen);
    var step := ToggleEffect(prev.files, codec, themes[n], chosen);
    assert RunToggles(files, codec, themes, chosen).modes == prev.modes + [step.mode];
    if j < n {
      RunTogglesModes(files, codec, init, chosen, j);
      assert init[..j] == themes[..j];
      assert init[j] == themes[j];
    } else {
      assert themes[..j] == init;
    }
  }

  /** One more descriptor: its toggle runs on the files the prefix left. */
  lemma RunTogglesStep(files: Files, codec: Codec, themes: seq<ApplicationTheme>, i: nat, chosen: ModeValue)
    requires i < |themes|
    ensures var prev := RunToggles(files, codec, themes[..i], chosen);
            var step := ToggleEffect(prev.files, codec, themes[i], chosen);
            RunToggles(files, codec, themes[..i + 1], chosen) == EarlyRun(step.files, prev.modes + [step.mode])
  {
    assert themes[..i + 1][..i] == themes[..i];
  }

  method ToggleTheme(fs: FileSystem, codec: Codec, theme: ApplicationTheme) returns (outcome: Outcome)
    modifies fs, theme
    ensures Flip(fs.files, theme.mode, outcome) == ToggleEffect(old(fs.files), codec, theme, old(theme.mode))
  {
    match theme.toggleCallback
    case ToggleVscodeTheme =>
      outcome := ToggleVscodeThemeStep(fs, codec, theme);
    case ToggleTerminalTheme =>
      outcome := ToggleTerminalThemeStep(fs, theme);
  }

  /** main(themes, args): a descriptor's final mode is what its last call
      left, since each adapter flips the mode `main` gave it. */
  method RunMain(fs: FileSystem, codec: Codec, themes: seq<ApplicationTheme>, args: seq<string>)
    modifies fs, themes
    ensures var run := RunToggles(old(fs.files), codec, themes, SelectMode(args));
            && fs.files == run.files
            && forall j :: 0 <= j < |themes| && (forall k :: j < k < |themes| ==> themes[k] != themes[j])
                 ==> themes[j].mode == run.modes[j]
  {
    var mode := SelectMode(args);
    for i := 0 to |themes|
      invariant fs.files == RunToggles(old(fs.files), codec, themes[..i], mode).files
      invariant forall j :: 0 <= j < i && (forall k :: j < k < i ==> themes[k] != themes[j])
                  ==> themes[j].mode == RunToggles(old(fs.files), codec, themes[..i], mode).modes[j]
    {
      var theme := themes[i];
      theme.mode := mode;
      var outcome := ToggleTheme(fs, codec, theme);
      RunTogglesStep(old(fs.files), codec, themes, i, mode);
    }
    assert themes[..|themes|] == themes;
  }
}
