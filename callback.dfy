/** The two file adapters: the JSON one for the editor settings and the
    line-editing one for the terminal settings. Each is a function of the
    files it sees (the specification) and a method that follows the
    program's steps and is proved to agree with it. */
module Callback {
  import opened Results
  import opened PyStr
  import opened Json
  import opened Disk
  import opened Theme

  /** The files after one adapter call, and how the call ended. */
  datatype Effect = Effect(files: Files, outcome: Outcome)

  /** The path an adapter works on: `path`, or `windows_path` when `path`
      does not exist. */
  function Target(files: Files, t: AppTheme): Result<string> {
    ResolvePath(files, t.path, t.windowsPath)
  }

  /** `files2` differs from `files` at most in the contents of the existing
      path `p`, which it holds as text. */
  ghost predicate RewritesOnly(files: Files, files2: Files, p: string) {
    && files2.Keys == files.Keys
    && p in files && files2[p].Contents?
    && forall q :: q in files && q != p ==> files2[q] == files[q]
  }

  /** The JSON object stored at `p`, when `p` opens and decodes to one. */
  function LoadObject(files: Files, codec: Codec, p: string): Option<map<string, Value>> {
    match Open(files, p)
    case Err(_) => None
    case Ok(text) =>
      match codec.load(text)
      case Some(Object(fields)) => Some(fields)
      case _ => None
  }

  // ---------------------------------------------------------------------
  // set_vscode_theme

  /** The JSON adapter. It sets `keys` to the mode's name, and writes the
      file back only once the content has decoded to an object. */
  function VscodeEffect(files: Files, codec: Codec, t: AppTheme, mode: ThemeMode): (e: Effect)
    ensures e.outcome.Escaped? <==> Target(files, t).Err?
    ensures e.outcome.Escaped? ==> e.outcome.error == Target(files, t).error
    ensures e.outcome.Done? <==> Target(files, t).Ok? && LoadObject(files, codec, Target(files, t).value).Some?
    ensures !e.outcome.Done? ==> e.files == files
    ensures e.outcome.Done? ==> e.outcome.name == t.NameFor(mode) && RewritesOnly(files, e.files, Target(files, t).value)
  {
    match Target(files, t)
    case Err(err) => Effect(files, Escaped(err))
    case Ok(p) =>
      match Open(files, p)
      case Err(err) => Effect(files, Caught(err))
      case Ok(text) =>
        match codec.load(text)
        case None => Effect(files, Caught(JSONDecodeError))
        case Some(settings) =>
          if !settings.Object? then Effect(files, Caught(TypeError))
          else
            var name := t.NameFor(mode);
            Effect(files[p := Contents(codec.dump(Object(settings.fields[t.keys := Str(name)])))], Done(name))
  }

  /** After a successful call, reading the file back gives the old object
      with `keys` set to the mode's name (added if it was absent) and every
      other key as it was. */
  lemma VscodeStoresName(files: Files, codec: Codec, t: AppTheme, mode: ThemeMode)
    requires ReadsBack(codec)
    requires VscodeEffect(files, codec, t, mode).outcome.Done?
    ensures var p := Target(files, t).value;
            var before := LoadObject(files, codec, p).value;
            var after := LoadObject(VscodeEffect(files, codec, t, mode).files, codec, p);
            && after.Some?
            && t.keys in after.value && after.value[t.keys] == Str(t.NameFor(mode))
            && (forall k :: k != t.keys ==> (k in after.value <==> k in before))
            && (forall k :: k != t.keys && k in before ==> after.value[k] == before[k])
  {
    var p := Target(files, t).value;
    var fields := LoadObject(files, codec, p).value;
    var v := Object(fields[t.keys := Str(t.NameFor(mode))]);
    assert VscodeEffect(files, codec, t, mode).files == files[p := Contents(codec.dump(v))];
    assert codec.load(codec.dump(v)) == Some(v);
  }

  /** A successful call leaves the primary path's status as it was, so a
      later call resolves to the same file. */
  lemma VscodeKeepsTarget(files: Files, codec: Codec, t: AppTheme, mode: ThemeMode)
    requires VscodeEffect(files, codec, t, mode).outcome.Done?
    ensures Target(VscodeEffect(files, codec, t, mode).files, t) == Target(files, t)
  {
  }

  /** Applying the JSON adapter twice with the same mode gives what applying
      it once gives: the second call rewrites the same text. */
  lemma VscodeIdempotent(files: Files, codec: Codec, t: AppTheme, mode: ThemeMode)
    requires ReadsBack(codec)
    ensures var once := VscodeEffect(files, codec, t, mode);
            VscodeEffect(once.files, codec, t, mode) == once
  {
    var once := VscodeEffect(files, codec, t, mode);
    if once.outcome.Done? {
      var p := Target(files, t).value;
      var fields := LoadObject(files, codec, p).value;
      var name := t.NameFor(mode);
      var v := Object(fields[t.keys := Str(name)]);
      assert once.files == files[p := Contents(codec.dump(v))];
      VscodeKeepsTarget(files, codec, t, mode);
      assert codec.load(codec.dump(v)) == Some(v);
      assert v.fields[t.keys := Str(name)] == v.fields;
      assert once.files[p := Contents(codec.dump(v))] == once.files;
    }
  }

  /** set_vscode_theme, step by step. */
  method SetVscodeTheme(fs: FileSystem, codec: Codec, theme: AppTheme) returns (outcome: Outcome)
    modifies fs
    ensures Effect(fs.files, outcome) == VscodeEffect(old(fs.files), codec, theme, theme.mode)
  {
    var path := theme.path;
    var probe := Open(fs.files, path);
    if probe.Err? {
      if probe.error != FileNotFoundError {
        return Escaped(probe.error);
      }
      path := theme.windowsPath;
    }
    var handle := Open(fs.files, path);
    if handle.Err? {
      return Caught(handle.error);
    }
    var loaded := codec.load(handle.value);
    if loaded.None? {
      return Caught(JSONDecodeError);
    }
    if !loaded.value.Object? {
      return Caught(TypeError);
    }
    var settings := loaded.value.fields;
    settings := settings[theme.keys := Str(theme.NameFor(theme.mode))];
    fs.files := fs.files[path := Contents(codec.dump(Object(settings)))];
    outcome := Done(theme.NameFor(theme.mode));
  }

  // ---------------------------------------------------------------------
  // set_terminal_theme

  /** `theme.keys.split(theme.settings_delimiter)[-1]`; an empty delimiter
      makes `split` raise ValueError. */
  function BareKey(keys: string, delimiter: string): (r: Result<string>)
    ensures r.Err? <==> delimiter == ""
    ensures r.Err? ==> r.error == ValueError
    ensures r.Ok? ==> IsSuffix(r.value, keys) && !Contains(r.value, delimiter)
    ensures r.Ok? && !Contains(keys, delimiter) ==> r.value == keys
    ensures r.Ok? && Contains(keys, delimiter) ==> IsSuffix(delimiter + r.value, keys)
  {
    if delimiter == "" then Err(ValueError)
    else
      LastSegmentShape(keys, delimiter);
      if !Contains(keys, delimiter) then SplitWithoutSep(keys, delimiter); Ok(LastSegment(keys, delimiter))
      else LastSegmentAfterSep(keys, delimiter); Ok(LastSegment(keys, delimiter))
  }

  /** What the line scan looks for: the bare key, the two names, and the
      name written in place of the current one. */
  datatype Lookup = Lookup(key: string, darkName: string, lightName: string, toggled: string)

  /** A line holds the key and at least one of the two names. */
  predicate Qualifies(lk: Lookup, line: string) {
    Contains(line, lk.key) && (Contains(line, lk.darkName) || Contains(line, lk.lightName))
  }

  /** `theme.names[theme.light_name in line]` */
  function CurrentName(lk: Lookup, line: string): string {
    if Contains(line, lk.lightName) then lk.lightName else lk.darkName
  }

  /** A qualifying line whose current name is non-empty, so that
      `current_theme_name` becomes truthy and ends the search. */
  predicate Settles(lk: Lookup, line: string) {
    Qualifies(lk, line) && CurrentName(lk, line) != ""
  }

  /** The loop's two variables: the lines written so far and `current_theme_name`. */
  datatype Scanned = Scanned(out: seq<string>, current: string)

  /** One turn of the loop. */
  function ScanStep(lk: Lookup, acc: Scanned, line: string): Scanned {
    if acc.current == "" && Qualifies(lk, line) then
      var name := CurrentName(lk, line);
      Scanned(acc.out + [Replace(line, name, lk.toggled)], name)
    else
      Scanned(acc.out + [line], acc.current)
  }

  /** The loop over a prefix of the lines. */
  function Scan(lk: Lookup, lines: seq<string>): (r: Scanned)
    ensures |r.out| == |lines|
    decreases |lines|
  {
    if lines == [] then Scanned([], "")
    else ScanStep(lk, Scan(lk, lines[..|lines| - 1]), lines[|lines| - 1])
  }

  /** Line `k` is rewritten: it qualifies and no earlier line settled the search. */
  predicate Edited(lk: Lookup, lines: seq<string>, k: int)
    requires 0 <= k < |lines|
  {
    Qualifies(lk, lines[k]) && forall j :: 0 <= j < k ==> !Settles(lk, lines[j])
  }

  /** Line `k` of the scan: replaced when it is edited, copied otherwise. */
  lemma {:induction false} ScanLineAt(lk: Lookup, lines: seq<string>, k: nat)
    requires k < |lines|
    ensures Scan(lk, lines).out[k] ==
              if Edited(lk, lines, k) then Replace(lines[k], CurrentName(lk, lines[k]), lk.toggled) else lines[k]
    decreases |lines|
  {
    var n := |lines| - 1;
    var init := lines[..n];
    var acc := Scan(lk, init);
    assert Scan(lk, lines) == ScanStep(lk, acc, lines[n]);
    assert forall i :: 0 <= i < n ==> init[i] == lines[i];
    if k < n {
      ScanLineAt(lk, init, k);
      assert Edited(lk, init, k) <==> Edited(lk, lines, k);
    } else {
      ScanCurrent(lk, init);
      if acc.current != "" {
        var m :| 0 <= m < n && Settles(lk, init[m]) && Edited(lk, init, m) && acc.current == CurrentName(lk, init[m]);
        assert Settles(lk, lines[m]);
      }
    }
  }

  /** The scan, line by line: an edited line has its current name replaced,
      every other line is copied as it is. */
  lemma ScanLines(lk: Lookup, lines: seq<string>)
    ensures |Scan(lk, lines).out| == |lines|
    ensures forall k :: 0 <= k < |lines| ==>
              Scan(lk, lines).out[k] ==
                if Edited(lk, lines, k) then Replace(lines[k], CurrentName(lk, lines[k]), lk.toggled) else lines[k]
  {
    forall k | 0 <= k < |lines|
      ensures Scan(lk, lines).out[k] ==
                if Edited(lk, lines, k) then Replace(lines[k], CurrentName(lk, lines[k]), lk.toggled) else lines[k]
    {
      ScanLineAt(lk, lines, k);
    }
  }

  /** The search ends with the current name of the first settling line, or
      with "" if none settles. */
  lemma {:induction false} ScanCurrent(lk: Lookup, lines: seq<string>)
    ensures Scan(lk, lines).current == "" <==> forall k :: 0 <= k < |lines| ==> !Settles(lk, lines[k])
    ensures Scan(lk, lines).current != "" ==>
              exists k :: 0 <= k < |lines| && Settles(lk, lines[k]) && Edited(lk, lines, k)
                          && Scan(lk, lines).current == CurrentName(lk, lines[k])
    decreases |lines|
  {
    if lines != [] {
      var n := |lines| - 1;
      var init := lines[..n];
      var line := lines[n];
      ScanCurrent(lk, init);
      var acc := Scan(lk, init);
      assert Scan(lk, lines) == ScanStep(lk, acc, line);
      assert forall k :: 0 <= k < n ==> init[k] == lines[k];
      if acc.current == "" {
        if Qualifies(lk, line) {
          assert Edited(lk, lines, n);
        }
      } else {
        var k :| 0 <= k < n && Settles(lk, init[k]) && Edited(lk, init, k) && acc.current == CurrentName(lk, init[k]);
        assert Settles(lk, lines[k]);
        assert Edited(lk, lines, k);
      }
    }
  }

  /** With both names non-empty, every qualifying line settles, so exactly
      the first qualifying line is rewritten and all others, later
      qualifying lines among them, are copied unchanged. */
  lemma FirstMatchRewritten(lk: Lookup, lines: seq<string>, j: nat)
    requires lk.darkName != "" && lk.lightName != ""
    requires j < |lines| && Qualifies(lk, lines[j])
    requires forall i :: 0 <= i < j ==> !Qualifies(lk, lines[i])
    ensures Scan(lk, lines).out == lines[j := Replace(lines[j], CurrentName(lk, lines[j]), lk.toggled)]
    ensures Scan(lk, lines).current == CurrentName(lk, lines[j]) != ""
  {
    ScanLines(lk, lines);
    ScanCurrent(lk, lines);
    var s := Scan(lk, lines);
    assert Settles(lk, lines[j]);
    forall k | 0 <= k < |lines|
      ensures s.out[k] == lines[j := Replace(lines[j], CurrentName(lk, lines[j]), lk.toggled)][k]
    {
      if k < j {
        assert !Edited(lk, lines, k);
      } else if k > j {
        assert !Edited(lk, lines, k);
      } else {
        assert Edited(lk, lines, k);
      }
    }
    var k :| 0 <= k < |lines| && Settles(lk, lines[k]) && Edited(lk, lines, k) && s.current == CurrentName(lk, lines[k]);
    assert k == j;
  }

  /** With no qualifying line the scan copies everything and finds nothing. */
  lemma NoMatchUnchanged(lk: Lookup, lines: seq<string>)
    requires forall k :: 0 <= k < |lines| ==> !Qualifies(lk, lines[k])
    ensures Scan(lk, lines).out == lines
    ensures Scan(lk, lines).current == ""
  {
    ScanLines(lk, lines);
    ScanCurrent(lk, lines);
  }

  /** The lookup for a descriptor: `toggled_theme_name` is
      `theme.names[theme.mode == theme.modes.light]`. */
  function TerminalLookup(t: AppTheme, key: string, mode: ThemeMode): (lk: Lookup)
    ensures lk.toggled == t.NameFor(mode)
  {
    Lookup(key, t.darkName, t.lightName, t.NameAt(mode == Light))
  }

  /** The text adapter. It rewrites the file only when the scan settled on
      a current name, and otherwise raises ValueError and catches it. */
  function TerminalEffect(files: Files, t: AppTheme, mode: ThemeMode): (e: Effect)
    ensures e.outcome.Escaped? <==> Target(files, t).Err?
    ensures e.outcome.Escaped? ==> e.outcome.error == Target(files, t).error
    ensures !e.outcome.Done? ==> e.files == files
    ensures e.outcome.Done? ==> e.outcome.name == t.NameFor(mode) && RewritesOnly(files, e.files, Target(files, t).value)
  {
    match Target(files, t)
    case Err(err) => Effect(files, Escaped(err))
    case Ok(p) =>
      match Open(files, p)
      case Err(err) => Effect(files, Caught(err))
      case Ok(text) =>
        match BareKey(t.keys, t.settingsDelimiter)
        case Err(err) => Effect(files, Caught(err))
        case Ok(key) =>
          var lk := TerminalLookup(t, key, mode);
          var s := Scan(lk, SplitLines(text));
          if s.current != "" then Effect(files[p := Contents(Concat(s.out))], Done(lk.toggled))
          else Effect(files, Caught(ValueError))
  }

  /** With non-empty names, the file gets its first qualifying line with the
      current name (light if it occurs there, else dark) replaced by the
      mode's name, and every other line character for character as read, in order. */
  lemma TerminalRewritesFirstMatch(files: Files, t: AppTheme, mode: ThemeMode, p: string, text: string, j: nat)
    requires t.darkName != "" && t.lightName != "" && t.settingsDelimiter != ""
    requires Target(files, t) == Ok(p) && Open(files, p) == Ok(text)
    requires var lk := TerminalLookup(t, LastSegment(t.keys, t.settingsDelimiter), mode);
             var lines := SplitLines(text);
             j < |lines| && Qualifies(lk, lines[j]) && forall i :: 0 <= i < j ==> !Qualifies(lk, lines[i])
    ensures var lk := TerminalLookup(t, LastSegment(t.keys, t.settingsDelimiter), mode);
            var lines := SplitLines(text);
            TerminalEffect(files, t, mode)
              == Effect(files[p := Contents(Concat(lines[j := Replace(lines[j], CurrentName(lk, lines[j]), t.NameFor(mode))]))],
                        Done(t.NameFor(mode)))
  {
    var lk := TerminalLookup(t, LastSegment(t.keys, t.settingsDelimiter), mode);
    FirstMatchRewritten(lk, SplitLines(text), j);
  }

  /** With no qualifying line nothing is written and the ValueError raised
      for it is caught. */
  lemma TerminalNoMatch(files: Files, t: AppTheme, mode: ThemeMode, p: string, text: string)
    requires t.settingsDelimiter != ""
    requires Target(files, t) == Ok(p) && Open(files, p) == Ok(text)
    requires forall line :: line in SplitLines(text) ==>
               !Qualifies(TerminalLookup(t, LastSegment(t.keys, t.settingsDelimiter), mode), line)
    ensures TerminalEffect(files, t, mode) == Effect(files, Caught(ValueError))
  {
    NoMatchUnchanged(TerminalLookup(t, LastSegment(t.keys, t.settingsDelimiter), mode), SplitLines(text));
  }

  /** The `for line in f` loop of set_terminal_theme: it accumulates
      `settings_string` and `current_theme_name`. */
  method ScanSettings(lines: seq<string>, key: string, theme: AppTheme, toggledThemeName: string)
    returns (settingsString: string, currentThemeName: string)
    ensures var s := Scan(Lookup(key, theme.darkName, theme.lightName, toggledThemeName), lines);
            settingsString == Concat(s.out) && currentThemeName == s.current
  {
    ghost var lk := Lookup(key, theme.darkName, theme.lightName, toggledThemeName);
    settingsString, currentThemeName := "", "";
    for i := 0 to |lines|
      invariant settingsString == Concat(Scan(lk, lines[..i]).out)
      invariant currentThemeName == Scan(lk, lines[..i]).current
    {
      var line := lines[i];
      if currentThemeName == "" && Contains(line, key)
         && (Contains(line, theme.darkName) || Contains(line, theme.lightName))
      {
        currentThemeName := theme.NameAt(Contains(line, theme.lightName));
        line := Replace(line, currentThemeName, toggledThemeName);
      }
      assert lines[..i + 1][..i] == lines[..i];
      ConcatSnoc(Scan(lk, lines[..i]).out, line);
      settingsString := settingsString + line;
    }
    assert lines[..|lines|] == lines;
  }

  /** set_terminal_theme, step by step. */
  method SetTerminalTheme(fs: FileSystem, theme: AppTheme) returns (outcome: Outcome)
    modifies fs
    ensures Effect(fs.files, outcome) == TerminalEffect(old(fs.files), theme, theme.mode)
  {
    var path := theme.path;
    var probe := Open(fs.files, path);
    if probe.Err? {
      if probe.error != FileNotFoundError {
        return Escaped(probe.error);
      }
      path := theme.windowsPath;
    }
    var handle := Open(fs.files, path);
    if handle.Err? {
      return Caught(handle.error);
    }
    var bare := BareKey(theme.keys, theme.settingsDelimiter);
    if bare.Err? {
      return Caught(bare.error);
    }
    var toggledThemeName := theme.NameAt(theme.mode == Light);
    var settingsString, currentThemeName := ScanSettings(SplitLines(handle.value), bare.value, theme, toggledThemeName);
    if currentThemeName != "" {
      fs.files := fs.files[path := Contents(settingsString)];
      outcome := Done(toggledThemeName);
    } else {
      outcome := Caught(ValueError);
    }
  }

  // ---------------------------------------------------------------------
  // `theme.toggle_callback(theme)`

  /** The adapter a descriptor names, with `mode` as its `theme.mode`. */
  function ApplyEffect(files: Files, codec: Codec, t: AppTheme, mode: ThemeMode): (e: Effect)
    ensures e.outcome.Escaped? <==> Target(files, t).Err?
    ensures e.outcome.Escaped? ==> e.outcome.error == Target(files, t).error
    ensures !e.outcome.Done? ==> e.files == files
    ensures e.outcome.Done? ==> e.outcome.name == t.NameFor(mode) && RewritesOnly(files, e.files, Target(files, t).value)
  {
    match t.toggleCallback
    case SetVscodeTheme => VscodeEffect(files, codec, t, mode)
    case SetTerminalTheme => TerminalEffect(files, t, mode)
  }

  /** The adapter with its path probe inside the `try`, as the handler's
      comment means it: an error of the probe is caught and logged like
      any other failure, and wherever the adapter as written does not
      raise, the two agree. */
  function GuardedEffect(files: Files, codec: Codec, t: AppTheme, mode: ThemeMode): (e: Effect)
    ensures !e.outcome.Escaped?
    ensures Target(files, t).Err? ==> e.files == files && e.outcome == Caught(OSError)
    ensures !ApplyEffect(files, codec, t, mode).outcome.Escaped? ==> e == ApplyEffect(files, codec, t, mode)
    ensures e.outcome.Done? ==> e.outcome.name == t.NameFor(mode) && RewritesOnly(files, e.files, Target(files, t).value)
  {
    match Target(files, t)
    case Err(err) => Effect(files, Caught(err))
    case Ok(_) => ApplyEffect(files, codec, t, mode)
  }

  method Apply(fs: FileSystem, codec: Codec, theme: AppTheme) returns (outcome: Outcome)
    modifies fs
    ensures Effect(fs.files, outcome) == ApplyEffect(old(fs.files), codec, theme, theme.mode)
  {
    match theme.toggleCallback
    case SetVscodeTheme =>
      outcome := SetVscodeTheme(fs, codec, theme);
    case SetTerminalTheme =>
      outcome := SetTerminalTheme(fs, theme);
  }
}
