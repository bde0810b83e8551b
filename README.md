# theme-toggler, modelled in Dafny

theme-toggler is a small script that switches applications between a light
and a dark theme. Each application is described by a *descriptor*
(`AppTheme`). A descriptor holds:

- the settings key and the two theme names;
- a primary path and a Windows fallback path to the settings file;
- the adapter that rewrites that file.

The driver does three things in order:

1. It detects the current mode. It asks the Windows registry first, then the first descriptor's settings file.
2. It toggles the mode, gives the toggled mode to every descriptor in list order and runs each adapter.
3. On Windows, it writes the mode back into the registry.

There are two adapters:

- **JSON adapter** (`set_vscode_theme`). It stores the mode's name under one key of a JSON object.
- **Line adapter** (`set_terminal_theme`). It rewrites the first line that holds the key's last segment and one of the two names. It replaces that line's current name with the toggled name.

The repository keeps three older revisions side by side:

- `main.py`: a single-file version of the same program.
- `themes.py`: an earlier version. The mode comes from the command line and each adapter flips whatever the file holds.
- `themetoggler.py`: a thread-pooled driver whose per-descriptor wrapper swallows adapter exceptions.

The model is split into modules:

- `Results`: Option, Result, the Python exception kinds, and the outcome of an adapter call. An outcome is done, an error caught inside the adapter, or an error that escapes it.
- `PyStr`: Python's `in`, `str.replace`, `str.split`, `str.join`, line iteration over a text file and `+=` accumulation, on `seq<char>`.
- `Json`: decoded JSON values. A `Codec` pairs `json.load` with `json.dump`. `ReadsBack(codec)` says the two round-trip; it is a hypothesis only of the lemmas that need it.
- `Disk`: the file system as a map from path to entry. An absent path raises FileNotFoundError. An entry that cannot be opened raises another OSError. `ResolvePath` is the "probe `path`, else `windows_path`" step. The `FileSystem` class holds the map that the adapters' methods rewrite.
- `Theme`: `ThemeMode`, and the `AppTheme` class with its `names` and `modes`.
- `Callback`: both adapters, each as a function of the files (the specification) and as a method that follows the program step by step and is proved equal to it. The `for line in f` loop is a method with loop invariants over the scanned prefix.
- `ThemeToggler`: mode detection and the toggle. It also has the registry (a class whose `personalize` map the system write updates), the driver loop and the system write.
- `MainRevision`, `EarlyRevision`, `PoolRevision`: the older revisions. They reuse the shared parts of the modules above and define only what differs.

Points where the code differs from its own comments and design:

- **A probe error escapes the adapter.** Each adapter probes `path` with an `open` outside its `try`, and only FileNotFoundError is handled there. The driver is modelled as written, with `Escaped` outcomes, `ThemeToggler.EscapeStops` and `ThemeToggler.NoEscapeWhenOpenable`. The corrected adapter and loop are `Callback.GuardedEffect` and `ThemeToggler.RunGuarded`; see "## Findings".
- **An empty name keeps the scan going.** `current_theme_name` is checked for truthiness, so a qualifying line whose current name is the empty string does not end the scan. `Callback.ScanLines` states the general case. The first-match lemmas assume non-empty names.
- **Mode detection in `main.py` ignores the registry.** A leftover `assert False` in `get_current_mode` means that, with assertions enabled, the registry is never consulted.

## Model

| member | source | states |
|---|---|---|
| PyStr.Contains | callback.py:70-71 | `sub in s` only when `sub` is no longer than `s` |
| PyStr.ContainsSameLength | callback.py:70-71 | a `sub` as long as `s` is in `s` only when the two are equal |
| PyStr.ContainsIffOccurs | callback.py:70-71 | `sub in s` holds exactly when `sub` occurs at some position of `s` |
| PyStr.Split | callback.py:64 | `str.split` with a non-empty separator always yields at least one part |
| PyStr.SplitSingle | callback.py:64 | the split yields exactly one part when the separator does not occur, and at least two when it does |
| PyStr.SplitJoin | callback.py:64 | joining the parts of `split(sep)` with `sep` gives back the string |
| PyStr.SplitWithoutSep | callback.py:64 | a string without the separator splits into itself alone |
| PyStr.LastSegmentAfterSep | callback.py:64 | when the separator occurs, the separator followed by `split(sep)[-1]` ends the string |
| PyStr.LastSegmentShape | callback.py:64 | `split(sep)[-1]` is a suffix of the string and holds no separator |
| PyStr.SplitLines | callback.py:69 | line iteration: the lines concatenate to the text, none is empty, a newline only ends a line, every line but the last ends in one |
| PyStr.ConcatSnoc | callback.py:79 | `settings_string += line` extends the concatenation of the lines so far by that line |
| PyStr.Replace | callback.py:78 | `str.replace` keeps the length when pattern and replacement are equally long, inserts the replacement once per character plus once for an empty pattern, and never lengthens the text when deleting a non-empty pattern |
| PyStr.ReplaceSame | callback.py:78 | replacing a name by itself leaves the line as it was |
| PyStr.ReplaceAbsent | callback.py:78 | replacing a non-empty pattern that does not occur leaves the line as it was |
| PyStr.ReplaceIntroduces | callback.py:78 | after replacing a pattern that occurs, the replacement occurs in the result |
| PyStr.ReplaceIsJoinOfSplit | callback.py:78 | `str.replace` equals splitting on the pattern and joining with the replacement, which replaces every non-overlapping occurrence from left to right |
| Disk.FileSystem.constructor | callback.py:22-23 | the file system the adapters open and rewrite starts with the given files |
| Disk.Open | callback.py:18-23 | `open` succeeds exactly on an existing openable path and yields its text; a missing path is FileNotFoundError, any other failure OSError |
| Disk.ResolvePath | callback.py:16-21 | the primary path is used when it exists and opens, the Windows path when the primary is missing, and otherwise the probe's OSError is returned |
| Theme.ModeFromValue | theme.py:7-10 | `ThemeMode(v)` is defined exactly for 0 and 1 and gives the member with that value |
| Theme.ValueRoundTrip | theme.py:7-10 | each mode is the member its own value selects |
| Theme.Modes | theme.py:29 | `modes(b)` is light exactly when `b` is true |
| Theme.AppTheme.constructor | theme.py:13-29 | the descriptor holds the given fields; mode and delimiter take the given values, light and ':' by default |
| Theme.AppTheme.Names | theme.py:31-34 | `names` holds two names, indexed by a mode's value: the dark name at 0, the light name at 1 |
| Theme.AppTheme.NameFor | theme.py:31-34 | `names[mode.value]` is the light name for light and the dark name for dark |
| Theme.AppTheme.NameAt | theme.py:31-34 | `names[b]` is the light name when `b` is true, else the dark name |
| Theme.DefaultsExample | theme.py:27-28 | a descriptor built without mode or delimiter is in light mode with ':' and names its light theme |
| Callback.VscodeEffect | callback.py:6-46 | the JSON adapter: an uncaught probe error exactly when the path cannot be resolved; success exactly when the file decodes to an object; on success the mode's name is reported and only the resolved file changes; otherwise no file changes; `set_vscode_theme` at main.py:66-98 is the same code |
| Callback.VscodeStoresName | callback.py:29-32 | after success, reading the file back gives the old object with the key set (or added) to `names[mode.value]` and every other key unchanged |
| Callback.VscodeKeepsTarget | callback.py:16-21 | a successful write does not change which path the next call resolves to |
| Callback.VscodeIdempotent | callback.py:29-39 | a second call with the same mode changes nothing more than the first |
| Callback.SetVscodeTheme | callback.py:6-46 | the step-by-step adapter leaves the files and returns the outcome that `VscodeEffect` gives for the descriptor's mode |
| Callback.BareKey | callback.py:64 | the bare key is the last segment of `keys` on the delimiter: a suffix of `keys` without the delimiter, `keys` itself when it holds none, and preceded in `keys` by the delimiter when it holds one; an empty delimiter is a ValueError |
| Callback.TerminalLookup | callback.py:65 | the toggled name is `names[mode == light]`, the mode's own name |
| Callback.Scan | callback.py:69-79 | the `for line in f` loop over the lines read so far writes one line per line read, `Callback.ScanLines` and `Callback.ScanCurrent` give its meaning |
| Callback.ScanLines | callback.py:68-79 | the scan line by line: a qualifying line before which no line settled the search has its current name replaced, every other line is copied, in order |
| Callback.ScanCurrent | callback.py:68-80 | the scan ends with the current name of the first settling line, the one edited, or with "" exactly when no line settles |
| Callback.FirstMatchRewritten | callback.py:69-79 | with non-empty names, exactly the first line holding the key and a name is rewritten, later qualifying lines included untouched |
| Callback.NoMatchUnchanged | callback.py:69-80 | with no qualifying line every line is copied and no current name is found |
| Callback.ScanSettings | callback.py:63-79 | the loop leaves `settings_string` equal to the concatenated scan output and `current_theme_name` equal to the scan's name |
| Callback.TerminalEffect | callback.py:49-94 | the line adapter: an uncaught probe error exactly when the path cannot be resolved; when it reports success the name written is the mode's name and only the resolved file changes; on every other outcome no file changes; `set_terminal_theme` at main.py:101-144 is the same code |
| Callback.TerminalRewritesFirstMatch | callback.py:61-86 | the file becomes its lines with only the first qualifying line's current name (light if it occurs, else dark) replaced by the mode's name, every other line character for character as read, in order |
| Callback.TerminalNoMatch | callback.py:80-94 | with no qualifying line the file is not written and the ValueError is caught |
| Callback.SetTerminalTheme | callback.py:49-94 | the step-by-step adapter leaves the files and returns the outcome that `TerminalEffect` gives for the descriptor's mode |
| Callback.ApplyEffect | theme_toggler.py:34 | `theme.toggle_callback(theme)` runs the named adapter, with the guarantees both share |
| Callback.Apply | theme_toggler.py:34 | the dispatching method agrees with `ApplyEffect` |
| Callback.GuardedEffect | callback.py:17-46 | the adapter with its probe inside the `try`: nothing escapes, a probe error is caught as OSError with no file changed, it agrees with the adapter as written wherever that one does not raise, and on success reports the mode's name with only the resolved file changed |
| ThemeToggler.Registry.constructor | theme_toggler.py:9-14 | the registry holds whether `winreg` exists and the Personalize key's values, if the key opens |
| ThemeToggler.GetToggledMode | theme_toggler.py:90-92 | the toggled mode always differs from the current one; `get_toggled_mode` at themetoggler.py:35-37 is the same expression |
| ThemeToggler.ToggleTwice | theme_toggler.py:90-92 | toggling twice gives the mode back |
| ThemeToggler.SelectTheme | theme_toggler.py:65-72 | `themes[theme_id]` with Python's negative indexing, `themes[0]` for an index out of range, IndexError for an empty list |
| ThemeToggler.ModeInFile | theme_toggler.py:81-87 | dark exactly when the file holds a value under the key that is not the light name; light on every failure |
| ThemeToggler.GetCurrentAppMode | theme_toggler.py:57-87 | an error exactly for an empty list or an unresolvable path; otherwise dark exactly when the chosen descriptor's stored value exists and is not the light name |
| ThemeToggler.DetectAfterVscodeWrite | theme_toggler.py:76-84 | after the JSON adapter stores a mode for the first descriptor, detection reads that mode back, so consecutive runs alternate |
| ThemeToggler.RegistryMode | theme_toggler.py:45-51 | the registry answers exactly when `winreg` exists, the key opens and AppsUseLightTheme is present, and then says light exactly when it is non-zero |
| ThemeToggler.GetCurrentMode | theme_toggler.py:41-54 | the registry's answer when it has one, else the first descriptor's file |
| ThemeToggler.ToggleSystemMode | theme_toggler.py:98-108 | both registry entries get `mode.value` and nothing else changes; an unopenable key raises OSError |
| ThemeToggler.SystemRoundTrip | theme_toggler.py:98-108 | after the system write detection gives the written mode, the two entries are equal, and other entries are kept |
| ThemeToggler.RunCallbacks | theme_toggler.py:31-34 | the `for theme in THEMES` loop: the only exception that escapes it is a probe's OSError; `ThemeToggler.RunCallbacksPaths`, `ThemeToggler.EscapeStops` and `ThemeToggler.NoEscapeWhenOpenable` give its meaning |
| ThemeToggler.RunCallbacksPaths | theme_toggler.py:31-34 | the loop creates or removes no path, and the only exception that escapes it is a probe's OSError |
| ThemeToggler.EscapeStops | theme_toggler.py:31-34 | once an adapter raises, later descriptors are not reached |
| ThemeToggler.NoEscapeWhenOpenable | theme_toggler.py:31-34 | when every path opens, no adapter raises and every descriptor is reached |
| ThemeToggler.ProbeErrorStopsLoop | callback.py:17-21 | as written, a first descriptor whose primary path exists but raises OSError when opened ends the loop with that error and no file written, whatever the later descriptors' files hold |
| ThemeToggler.RunGuarded | theme_toggler.py:31-34 | the loop over guarded adapters raises nothing, for any files, and creates or removes no path |
| ThemeToggler.GuardedSkipsProbeError | callback.py:17-46 | with guarded adapters, a first descriptor whose probe fails is skipped and the later ones run as if it were not in the list |
| ThemeToggler.GuardedMatchesLoop | theme_toggler.py:31-34 | wherever the loop as written raises nothing, the guarded loop leaves the same files |
| ThemeToggler.ToggleOne | theme_toggler.py:33-34 | the descriptor gets the toggled mode and then its adapter runs with that mode |
| ThemeToggler.RunAll | theme_toggler.py:31-34 | the loop leaves the files `RunCallbacks` gives and stops at the first adapter that raises; when none raises every descriptor holds the toggled mode |
| ThemeToggler.ApplyToggledMode | theme_toggler.py:28-37 | every descriptor gets the toggled mode before its adapter runs, in list order, until one raises; the files are the loop's; the system write comes last and only on Windows |
| ThemeToggler.ToggleThemes | theme_toggler.py:21-38 | a detection error ends the run with nothing written; otherwise the toggled detected mode is applied as above |
| MainRevision.NewApplicationTheme | main.py:22-38 | this revision's descriptor defaults to dark mode and ':' |
| MainRevision.ModesAt | main.py:38 | indexing the tuple `(dark, light)` by a bool is the same as `modes(b)` |
| MainRevision.GetToggledMode | main.py:187-190 | the toggled mode differs from the current one and equals the later revision's |
| MainRevision.GetCurrentAppMode | main.py:165-184 | this revision's file-based detection gives what the later one gives for `theme_id` 0 |
| MainRevision.GetCurrentMode | main.py:147-162 | with assertions enabled the settings file always decides; without, the registry is read as in the later revision |
| MainRevision.RegistryIgnored | main.py:149-162 | with assertions enabled the detected mode does not depend on the registry |
| MainRevision.RunMain | main.py:46-63 | a detection error ends the run with nothing written; otherwise every descriptor gets the toggled mode before its adapter, then the system write on Windows |
| EarlyRevision.SelectMode | themes.py:30-32 | the first argument when it names a mode, kept as that string; otherwise the default dark mode |
| EarlyRevision.Flipped | themes.py:51 | the flip yields a mode member, light exactly when the old value is the dark member itself |
| EarlyRevision.ApplicationTheme.constructor | themes.py:18-27 | the early descriptor holds the given fields, dark and ':' by default |
| EarlyRevision.OppositeName | themes.py:48-50 | the new name is light exactly when the stored value is the dark name |
| EarlyRevision.VscodeToggle | themes.py:39-58 | nothing escapes; an unopenable or undecodable file is left alone; once the content decodes the file is emptied if the key is missing or the document is not an object; success exactly when the key is there, reporting the opposite of the stored name, flipping the mode and rewriting only the file at `path` |
| EarlyRevision.VscodeToggleStores | themes.py:44-53 | after a successful toggle, reading the file back gives the old object with the key set to the light name exactly when the dark name was stored, else to the dark name, and every other key kept |
| EarlyRevision.VscodeToggleIgnoresMode | themes.py:47-52 | the descriptor's mode has no effect on the files or the outcome |
| EarlyRevision.VscodeToggleTwice | themes.py:47-53 | toggling twice restores a stored dark or light name and keeps every other key |
| EarlyRevision.ToggleVscodeThemeStep | themes.py:39-58 | the step-by-step toggle agrees with `VscodeToggle` |
| EarlyRevision.EarlyScan | themes.py:69-80 | the early loop over the lines read so far writes one line per line read; `EarlyRevision.EarlyScanLines`, `EarlyRevision.EarlyScanFound` and `EarlyRevision.EarlyNoKey` give its meaning |
| EarlyRevision.EarlyScanLineAt | themes.py:69-80 | with non-empty names, a line is edited exactly when it is the first to hold the key, and otherwise copied |
| EarlyRevision.EarlyScanLines | themes.py:69-80 | with non-empty names, the first line holding the key is edited whether or not it holds a name, and every other line is copied |
| EarlyRevision.EarlyScanFound | themes.py:69-79 | with non-empty names, `new_theme_name` is bound exactly when some line holds the key, and then to the first such line's new name |
| EarlyRevision.EarlyScanFirstKey | themes.py:69-80 | with non-empty names and a first key line, the output is the lines with that line alone edited, and `new_theme_name` is that line's new name |
| EarlyRevision.EarlyNoKey | themes.py:69-80 | for any names, with no line holding the key every line is copied, `current_theme_name` stays empty and `new_theme_name` unbound |
| EarlyRevision.EarlyScanSettings | themes.py:66-80 | the loop's three variables equal the scan's |
| EarlyRevision.TerminalToggle | themes.py:61-90 | nothing escapes; an unopenable file is left alone; otherwise the file is rewritten and the mode flipped whatever the scan found |
| EarlyRevision.TerminalToggleNoKey | themes.py:80-90 | for any names, with no key line the same text is written back, the mode still flips, and the NameError is caught |
| EarlyRevision.TerminalToggleFirstKeyLine | themes.py:61-90 | with non-empty names, an openable file and a first line holding the last ':'-segment of `settings_name`, the file becomes its lines with that line alone edited, the mode flips, and that line's new name is reported as set |
| EarlyRevision.ToggleTerminalThemeStep | themes.py:61-90 | the step-by-step toggle agrees with `TerminalToggle` |
| EarlyRevision.RevisionsDisagree | themes.py:71-79 | on a file whose first key line names no theme, the later scan edits the next qualifying line while the early one edits nothing yet reports the light name |
| EarlyRevision.ToggleEffect | themes.py:36 | the named toggle lets nothing escape, and flips the mode it is given exactly when the JSON file decodes to an object holding the key, or, for the line toggle, when the file opens; otherwise the mode is kept |
| EarlyRevision.ToggleEffectIgnoresMode | themes.py:39-90 | neither toggle's files or outcome depend on the mode it is given |
| EarlyRevision.ToggleTheme | themes.py:36 | the dispatching method agrees with the named toggle |
| EarlyRevision.RunToggles | themes.py:33-36 | the loop yields one final mode per descriptor |
| EarlyRevision.RunTogglesIgnoresChosen | themes.py:30-36 | the files the loop leaves do not depend on the mode `main` chose |
| EarlyRevision.RunTogglesModes | themes.py:33-36 | each position ends with the chosen mode flipped exactly when its toggle, on the files the earlier toggles left, flips it, and with the chosen mode itself otherwise |
| EarlyRevision.RunMain | themes.py:30-36 | the files are the loop's, each descriptor given the chosen mode before its toggle; each descriptor's final mode is what its last call left |
| PoolRevision.WrapperEffect | themetoggler.py:24-31 | a wrapper whose messages read a missing attribute raises AttributeError before the adapter and changes nothing; otherwise nothing escapes it |
| PoolRevision.AsWrittenNeverRuns | themetoggler.py:26 | as written (`app_name`), every wrapper raises AttributeError and leaves the files alone |
| PoolRevision.CorrectedRunsCallback | themetoggler.py:27-31 | with the descriptor's `option` as label the adapter runs with the toggled mode and its exceptions are swallowed |
| PoolRevision.Wrapper | themetoggler.py:22-32 | the wrapper sets the toggled mode first and then agrees with `WrapperEffect` |
| PoolRevision.PoolRun | themetoggler.py:18-19 | the pooled run creates or removes no path; with an attribute the descriptors have nothing escapes; with one they lack no file changes and an exception is re-raised exactly when the list is non-empty |
| PoolRevision.PoolAsWritten | themetoggler.py:15-19 | as written, the pooled run changes no file and ends in AttributeError for any non-empty list |
| PoolRevision.PoolCorrectedMatchesLoop | themetoggler.py:18-31 | corrected, the pooled run never raises and, when the sequential driver reaches every descriptor, leaves the same files |
| PoolRevision.PoolCorrectedIsGuarded | themetoggler.py:18-31 | corrected, the pooled run is the loop over guarded adapters: the wrapper's `try` catches the probe's error too |
| PoolRevision.PoolMain | themetoggler.py:15-19 | every descriptor ends with the toggled mode and the files are those of the wrappers run in list order |

## Left out

- Real file I/O (`open`, `seek`, `truncate`, `write`), encodings and newline translation: a file is its whole text, and a rewrite replaces it. The probe and the `r+` open face the same entry, so a file readable but not writable is not distinguished.
- JSON text syntax and `json.dump`'s formatting: the codec is a parameter, and only its read-back property is assumed where a lemma needs it. Floating-point numbers are not among the values.
- The `winreg` API, value types and access rights: the Personalize key is a map from value name to integer, or absent when it cannot be opened. `IS_WINDOWS` is a flag of the registry.
- `print` and `repr` output: logging only. The one print that matters, the `app_name` read in the pooled wrapper, is modelled.
- The thread pool of `themetoggler.py`: the wrappers are run one after another in list order, which is the order `executor.map` returns the results in. Interleaving of the adapters on shared files is not modelled. Nor is cancellation: once a result raises while `tuple` collects them, `executor.map` cancels the futures that have not started, so with more descriptors than worker threads the real run need not set every descriptor's mode. `PoolRevision.PoolMain` states that every descriptor ends with the toggled mode for the sequential run only.
- The import of `get_current_mode` from `callback.py` in `themetoggler.py`: that module defines no such function, so the module cannot be imported; `PoolRevision.PoolMain` takes the toggled mode as a parameter.
- `settings.py` (descriptor data) and `setup.py` (packaging): no logic. `pathlib` path construction and the hard-coded user paths are not modelled.
- `mode in ThemeMode` for a string in `themes.py` depends on the Python version: it is modelled as the mode strings being recognised.
- `get_current_app_mode` in `main.py` reads the module-level `themes` of the script; the model passes that list as a parameter.
- Callback.FirstMatchRewritten: stated for non-empty names only; with an empty name the scan may edit several lines, which `Callback.ScanLines` describes.
- Callback.TerminalRewritesFirstMatch: stated for non-empty names and a non-empty delimiter only; the other cases follow from `Callback.TerminalEffect` and `Callback.ScanLines`.
- EarlyRevision.EarlyScanLines: stated for non-empty names only; with an empty name the early scan may edit several lines.
- EarlyRevision.EarlyScanLineAt: stated for non-empty names only, as `EarlyRevision.EarlyScanLines`, which it proves line by line.
- EarlyRevision.EarlyScanFirstKey: stated for non-empty names only, since it rests on `EarlyRevision.EarlyScanFound`.
- EarlyRevision.TerminalToggleFirstKeyLine: stated for non-empty names only, for the same reason; `EarlyRevision.TerminalToggle` covers every file.
- EarlyRevision.EarlyScanFound: stated for non-empty names only; with an empty name, a key line can bind `new_theme_name` while `current_theme_name` stays empty, so a later key line binds it again and the final value need not come from the first key line.
- EarlyRevision.RunMain: a descriptor listed twice has its final mode stated only for its last position.

## Findings

| source | as written | input that shows it | evidently intended | confidence | as-written member | corrected member |
|---|---|---|---|---|---|---|
| callback.py:17-21 | the probe `open(path)` sits outside the adapter's `try` and its handler catches only FileNotFoundError, so any other OSError on the primary path escapes the adapter and ends the driver's loop, although the handler at callback.py:42-46 exists so that one failing application does not stop the others | a first descriptor whose primary path exists but cannot be opened, a permission error for example, followed by descriptors whose files are fine | the probe's error is caught and logged like any other failure of the adapter, and the loop goes on to the next descriptor | not executed | ThemeToggler.ProbeErrorStopsLoop | ThemeToggler.GuardedSkipsProbeError |
| themetoggler.py:26 | the wrapper's first print, outside the `try`, reads `theme.app_name`, which `AppTheme` does not define, so AttributeError is raised before any adapter runs and no theme is ever set | any descriptor, for example the terminal descriptor with `option='terminal'` | name the application with an attribute it has (`option`), so the adapter runs and its failures are swallowed | not executed | PoolRevision.AsWrittenNeverRuns | PoolRevision.CorrectedRunsCallback |
