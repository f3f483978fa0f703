# fabricator plugin dispatch, modelled in Dafny

This project models the plugin-dispatch core of the `fabricator` command-line
tool. The tool is a Go program built on cobra. When the first arguments do not
name a built-in command, fabricator looks for an executable called
`fabricator-<name>` on the plugin search path and runs it. The model covers:

- **Resolution.** `pluginCommandHandler` and `HandlePluginCommand` take the
  leading non-flag arguments and rewrite `-` to `_` inside each. They then try
  ever shorter joined names until the handler's lookup finds one. At each
  length the platform-tagged name is tried before the bare one. The untouched
  remaining arguments go to the plugin.
- **The default handler.** `DefaultPluginHandler.Lookup` searches prefix-major,
  then directory order, and an empty directory means `.`. On Windows it also
  tries extension variants. The executable probe exists twice, as
  `findExecutable` and `isExecutable`. `Execute` builds an executor rooted at
  `""` with the given environment.
- **Search-path helpers.** These are order-preserving de-duplication
  (`uniquePathsList`) and the prefix test (`hasValidPrefix`).
- **`fabricator plugin list`.**
  - `Options.Run` reads every directory of the de-duplicated search path and
    lists plugin files.
  - `CommandOverrideVerifier.Verify` checks each file. Its `seenPlugins` map
    works first-writer-wins, and it reports "not executable", "overshadowed" and
    "overwrites an existing command" diagnostics.
  - The pass turns read failures, an empty listing and diagnostics into
    errors.
- **Executor environments.** `NewExecutor`, `WithRoot`, `WithEnv`, `WithEnvMap`
  and `setEnv` derive and build a child environment.
- **Flag names and dispatch.** `WordSepNormalizeFunc` and
  `WarnWordSepNormalizeFunc` normalise flag names; the second keeps a
  warn-once `underscoreWarnings` table. The guard in
  `NewDefaultFabricatorCommandWithArgs` decides whether a plugin wrapper is
  added at all.

The model takes the outside world as parameters, and its lemmas hold for every
behaviour of those parameters:

- a `Host` value stands for the filesystem: `os.Stat`, `os.ReadDir`,
  `filepath.Join` and `runtime.GOOS`;
- the handler's lookup is a function;
- cobra's `Find` is a `CommandTree`.

Modules follow the source files:

| module | file | source |
|---|---|---|
| `GoStd` | `go_std.dfy` | the Go standard-library string and path functions the core relies on |
| `HostOS` | `host_os.dfy` | the OS oracles |
| `Probe` | `probe.dfy` | `findExecutable` / `isExecutable` |
| `Exec` | `exec.dfy` | `pkg/helpers/exec.go` |
| `PluginHandler` | `plugin_handler.dfy` | `pkg/cmd/plugin.go` |
| `PluginPaths`, `PluginResolve`, `PluginVerify`, `PluginList` | `plugin_paths.dfy`, `plugin_resolve.dfy`, `plugin_verify.dfy`, `plugin_list.dfy` | `pkg/cmd/plugin/plugin.go` |
| `Cmd` | `cmd.dfy` | `pkg/cmd/cmd.go` |

Each imperative routine is a method with loops. The method is proved equal to a
recursive specification function, and lemmas state the promised properties of
that function:

- the `Lookup` method and `DefaultLookup`;
- `UniquePathsList` and `Dedup`;
- `SearchLongest` and `LongestMatch` with `Probed`, the lookups made;
- `PluginCommandHandler` and `CommandHandlerOutcome`;
- `Verify` and `VerifyStep`;
- `Run` and `ScanDirs`.

State that the source updates in place is a field of a class:
`seenPlugins`, `underscoreWarnings` and the command's `Env`.

## Model

| member | source | states |
|---|---|---|
| `GoStd.ReplaceAllIsSplitJoin` | pkg/cmd/plugin/plugin.go:332 | `strings.Replace(s, from, to, -1)` equals splitting `s` at `from` and joining the pieces with `to` |
| `GoStd.ReplaceAllRemoves` | pkg/cmd/cmd.go:117 | after replacing a character by a different one, none of it is left |
| `GoStd.Split` | pkg/cmd/plugin/plugin.go:219 | `strings.Split` never returns an empty list and no piece contains the separator |
| `GoStd.JoinSplit` | pkg/cmd/plugin/plugin.go:219-222 | joining the pieces of a split with the separator gives back the string |
| `GoStd.SplitSingle` | pkg/cmd/plugin/plugin.go:222-226 | a split has a single piece exactly when the separator does not occur, and that piece is the whole string |
| `GoStd.SplitAtFirst` | pkg/cmd/plugin/plugin.go:222-225 | the split of `a + sep + b` (no separator in `a`) is `a` followed by the split of `b` |
| `GoStd.LastPieceIsSuffix` | pkg/cmd/plugin/plugin.go:219-220 | the last piece is a separator-free suffix that is the whole string or follows a separator |
| `GoStd.LastPieceAfter` | pkg/cmd/plugin/plugin.go:219-220 | the last piece of `a + sep + b` is `b` when `b` has no separator |
| `GoStd.Ext` | pkg/cmd/plugin.go:37 | `filepath.Ext` is empty or a suffix starting with its only '.' and holding no path separator; it is non-empty exactly when the final path element holds a '.' |
| `GoStd.ExtOfAppended` | pkg/cmd/plugin.go:63-67 | appending a dot-led, dot- and separator-free extension makes it the path's extension |
| `GoStd.ToLowerExt` | pkg/cmd/plugin.go:37 | the extension of the lower-cased path is the lower-cased extension, so `.BAT` and `.bat` name the same extension |
| `Probe.FindExecutable` | pkg/cmd/plugin.go:31-49 | findExecutable never succeeds when stat fails, and off Windows never for a directory |
| `Probe.IsExecutable` | pkg/cmd/plugin/plugin.go:249-270 | an error exactly when stat fails; off Windows a reported executable is never a directory |
| `Probe.ProbesAgree` | pkg/cmd/plugin.go:31-49 | findExecutable succeeds iff isExecutable reports true; a stat failure always fails; on Windows success iff stat works and the lower-cased extension is one of the five; elsewhere iff not a directory and some execute bit (octal 0111) is set |
| `Probe.WindowsVariantExecutable` | pkg/cmd/plugin.go:36-43 | on Windows a path with one of the five extensions appended passes as soon as it can be stat'ed, directories included |
| `Exec.NewExecutor` | pkg/helpers/exec.go:22-28 | the new executor has the given root and streams and an empty (non-nil) environment |
| `Exec.WithRoot` | pkg/helpers/exec.go:30-36 | only the root changes; streams and environment are carried over |
| `Exec.Overlay` | pkg/helpers/exec.go:45-63 | the merged keys are the union; the new map wins on collision, the old value stays elsewhere; a nil base counts as empty |
| `Exec.WithEnvMap` | pkg/helpers/exec.go:45-63 | the derived executor keeps root and streams and carries the old environment overridden by the map, built by the two insertion loops; the receiver is a value and is untouched |
| `Exec.WithEnv` | pkg/helpers/exec.go:38-43 | setting one variable is WithEnvMap with the one-entry map |
| `Exec.OverlayTwice` | pkg/helpers/exec.go:45-63 | deriving with `a` then `b` equals deriving once with `a` overridden by `b` |
| `Exec.DerivedEnvironmentsAreMaps` | pkg/helpers/exec.go:22-63 | for any chain of WithRoot and WithEnvMap/WithEnv steps from NewExecutor, the environment is never nil: it is the steps' maps layered in order, later ones winning, and the streams are NewExecutor's |
| `Exec.EnvLines` | pkg/helpers/exec.go:69-71 | one entry per listed key, in that order |
| `Exec.EnvLinesOnePerVariable` | pkg/helpers/exec.go:65-75 | for any enumeration of the map, there are as many entries as variables and every variable's entry is present |
| `Exec.SetEnv` | pkg/helpers/exec.go:65-75 | a nil environment leaves the command alone; otherwise its Env is the inherited list followed by one `key=value` per variable, in an unspecified order that enumerates the map |
| `PluginHandler.FirstHitDirIsFirst` | pkg/cmd/plugin.go:54-62 | for one prefix, a hit is the candidate of some directory with every earlier directory's candidate rejected; no hit means none is accepted |
| `PluginHandler.DefaultLookupFirstMatch` | pkg/cmd/plugin.go:52-75 | a found path is the candidate of the first accepted (prefix, directory) pair in prefix-major order; not found means `("", false)` and no pair is accepted |
| `PluginHandler.WindowsVariantFound` | pkg/cmd/plugin.go:63-70 | on Windows, when only an extension variant exists, Lookup returns the path without the extension |
| `PluginHandler.ProbeCandidate` | pkg/cmd/plugin.go:60-71 | the probes for one candidate accept it iff it is executable, or on Windows one of its extension variants is |
| `PluginHandler.Lookup` | pkg/cmd/plugin.go:52-75 | the nested prefix/directory loops, with `""` read as `"."`, return exactly DefaultLookup's first match |
| `PluginHandler.Execute` | pkg/cmd/plugin.go:78-82 | the file runs with exactly the given arguments under an executor with root `""`, the handler's streams and exactly the given environment |
| `PluginPaths.DedupSameElements` | pkg/cmd/plugin/plugin.go:272-285 | the de-duplicated list holds exactly the input's elements |
| `PluginPaths.DedupDistinct` | pkg/cmd/plugin/plugin.go:272-285 | the de-duplicated list has no duplicates |
| `PluginPaths.DedupKeepsFirstOccurrenceOrder` | pkg/cmd/plugin/plugin.go:272-285 | kept paths appear in the order of their first occurrence in the input |
| `PluginPaths.DedupOfDistinct` | pkg/cmd/plugin/plugin.go:272-285 | a duplicate-free list is returned unchanged |
| `PluginPaths.DedupIdempotent` | pkg/cmd/plugin/plugin.go:272-285 | de-duplicating twice equals de-duplicating once |
| `PluginPaths.UniquePathsList` | pkg/cmd/plugin/plugin.go:274-285 | the loop with its `seen` set returns exactly Dedup of the input |
| `PluginPaths.HasValidPrefix` | pkg/cmd/plugin/plugin.go:287-295 | true iff some prefix followed by "-" starts the name |
| `PluginPaths.PluginFileNames` | pkg/cmd/plugin/plugin.go:33 | with the built-in prefix list, a valid name is exactly one starting with "fabricator-" |
| `PluginResolve.TokenRun` | pkg/cmd/plugin/plugin.go:328-333 | the tokens are the longest leading run of arguments not starting with '-', each with '-' rewritten to '_'; the argument after the run is a flag |
| `PluginResolve.TokensHaveNoDash` | pkg/cmd/plugin/plugin.go:332 | no token contains '-' |
| `PluginResolve.NonFlagTokens` | pkg/cmd/plugin/plugin.go:328-333 | the first loop of both handlers returns exactly the token run of the arguments |
| `PluginResolve.LongestMatch` | pkg/cmd/plugin/plugin.go:343-359 | the chosen length succeeds (tagged name first, then bare) and every longer length fails; none means every length fails |
| `PluginResolve.ResolvedIsLongestMatch` | pkg/cmd/plugin/plugin.go:343-373 | a resolved plugin is found at the largest successful length k, gets exactly `cmdArgs[k..]` and an empty environment; otherwise no length succeeds or the longest success found an empty path |
| `PluginResolve.FlagFirstRejected` | pkg/cmd/plugin/plugin.go:335-339 | both handlers reject with the first argument exactly when it is a flag |
| `PluginResolve.LongerNameWins` | pkg/cmd/plugin/plugin.go:343-359 | with plugins for `foo` and `foo-bar`, `foo bar --x` runs `foo-bar` with just `--x` |
| `PluginResolve.ProbedCount` | pkg/cmd/plugin/plugin.go:343-359 | the search makes at most two lookups per length with a build tag and one without, and none for an empty run |
| `PluginResolve.ProbedStopsAtFirstHit` | pkg/cmd/plugin/plugin.go:343-359 | the search stops at the first hit: every name looked up but the last fails, and the last succeeds exactly when some length matches |
| `PluginResolve.SearchLongest` | pkg/cmd/plugin/plugin.go:343-359 | the search loop keeps the longest matching prefix of the run and returns its path, or no tokens and "" when no length matches; the names it looks up are exactly, from the longest length down, the tagged name and then (if the tagged one missed) the bare name, stopping at the first hit |
| `PluginResolve.PluginCommandHandler` | pkg/cmd/plugin/plugin.go:322-376 | the two loops produce the outcome of the longest-match specification (flag error, "no plugin found", or the invocation) and report `cmdArgs[0]` as the name; the lookups made are exactly those of the search, none when the run is empty |
| `PluginResolve.HandlePluginCommand` | pkg/cmd/plugin/plugin.go:380-418 | the same without the tagged attempt (one lookup per length), and with a nil return instead of an error when nothing matches |
| `PluginVerify.BinNameIsLastSegment` | pkg/cmd/plugin/plugin.go:218-220 | the binary name is the '/'-free tail of the path: all of it or the part after a '/' |
| `PluginVerify.CommandPathOf` | pkg/cmd/plugin/plugin.go:222-226 | the '-'-separated pieces without the first, unless there is only one piece |
| `PluginVerify.ExecutableCheck` | pkg/cmd/plugin/plugin.go:230-234 | no diagnostic iff executable; "not executable" when stat worked, "unable to identify" when it failed |
| `PluginVerify.Register` | pkg/cmd/plugin/plugin.go:236-240 | first writer wins: the name is added with this path if new, and every earlier entry is kept |
| `PluginVerify.VerifyStepSpec` | pkg/cmd/plugin/plugin.go:213-247 | nil root: exactly one error and no change; otherwise at most three diagnostics; overshadowed (naming the first path) iff the name was seen; overwrite iff the tree finds the command path; an executability diagnostic iff the probe did not report an executable |
| `PluginVerify.CommandOverrideVerifier.constructor` | pkg/cmd/plugin/plugin.go:107-110 | a verifier starts with the given root and an empty `seenPlugins` |
| `PluginVerify.CommandOverrideVerifier.Verify` | pkg/cmd/plugin/plugin.go:213-247 | the diagnostics and the new `seenPlugins` are those of VerifyStep |
| `PluginVerify.SeenHoldsNames` | pkg/cmd/plugin/plugin.go:236-240 | verifying paths one by one from an empty map leaves exactly their binary names in it (`PluginList.PassKeepsFirstWriter` carries this to the listing pass) |
| `PluginVerify.SeenKeepsFirstPath` | pkg/cmd/plugin/plugin.go:236-240 | verifying paths one by one from an empty map maps each name to the first path that had it (carried to the listing pass by `PluginList.PassKeepsFirstWriter`) |
| `PluginVerify.SeenAfterAppend` | pkg/cmd/plugin/plugin.go:236-240 | verifying one list of paths and then another leaves the same map as verifying the two lists joined |
| `PluginVerify.SecondIsOvershadowed` | pkg/cmd/plugin/plugin.go:236-240 | a second path with an already seen name is reported as overshadowed by the first and leaves the map unchanged |
| `PluginVerify.PluginCommandPath` | pkg/cmd/plugin/plugin.go:218-226 | for a name without '-' or '/', `<dir>/fabricator-<name>` has binary name `fabricator-<name>` and command path `[<name>]` |
| `PluginList.ScanFiles` | pkg/cmd/plugin/plugin.go:139-174 | the file loop never touches the skipped or unreadable directory lists |
| `PluginList.Errors` | pkg/cmd/plugin/plugin.go:177-196 | the pass fails iff a directory was unreadable (non-PathError), nothing was listed or some diagnostic was reported; the warning count is the number of diagnostics |
| `PluginList.ScanFilesListsPlugins` | pkg/cmd/plugin/plugin.go:139-154 | listed names only grow and each new one has a plugin prefix and, off Windows, no Windows extension |
| `PluginList.ScanDirsListsPlugins` | pkg/cmd/plugin/plugin.go:123-175 | the same over all directories |
| `PluginList.ShownIsListable` | pkg/cmd/plugin/plugin.go:139-166 | a line is shown for an entry exactly when the entry is listable: every listable entry's line is shown and every shown line is that of a listable entry |
| `PluginList.ScanFilesShows` | pkg/cmd/plugin/plugin.go:139-174 | the file loop appends exactly the shown lines of the directory's entries, in order |
| `PluginList.ScanDirsShows` | pkg/cmd/plugin/plugin.go:123-175 | a pass lists exactly the shown lines of the readable, non-blank directories, skips exactly the non-blank directories whose read gives a PathError and records as unreadable exactly those failing otherwise; blank directories leave no trace |
| `PluginList.ScanFilesSeen` | pkg/cmd/plugin/plugin.go:139-174 | with a command tree, the file loop leaves the verifier's map as verifying the shown entries' full paths one by one would |
| `PluginList.ScanDirsSeen` | pkg/cmd/plugin/plugin.go:123-175 | with a command tree, a whole pass leaves the map as verifying every shown plugin's full path in order, across all directories, would |
| `PluginList.PassKeepsFirstWriter` | pkg/cmd/plugin/plugin.go:236-240 | first writer wins across the plugin directories: after a pass from an empty map with a command tree, the map holds exactly the file names of the shown plugins, each mapped to the first shown path with that name |
| `PluginList.ScanFilesDiagnostics` | pkg/cmd/plugin/plugin.go:168-173 | each listed file adds at most three diagnostics, exactly one with a nil root |
| `PluginList.ScanDirsDiagnostics` | pkg/cmd/plugin/plugin.go:123-175 | the same over all directories |
| `PluginList.NilRootWarnsPerPlugin` | pkg/cmd/plugin/plugin.go:168-187 | without a command tree, a pass that lists plugins fails with one warning per plugin |
| `PluginList.WindowsExecutablesHiddenElsewhere` | pkg/cmd/plugin/plugin.go:146-154 | `fabricator-foo.BAT` is hidden off Windows (the extension is compared in lower case) and listed on Windows |
| `PluginList.Options.ListEntries` | pkg/cmd/plugin/plugin.go:139-174 | the file loop over one directory's entries lists, verifies and counts exactly as ScanFiles does |
| `PluginList.Options.Run` | pkg/cmd/plugin/plugin.go:117-197 | over the de-duplicated search path it lists, reports and skips exactly as ScanDirs does and returns Errors of the finished pass; with a command tree, `seenPlugins` ends as verifying the full paths of the shown plugins in order would leave it |
| `Cmd.WordSepNormalize` | pkg/cmd/cmd.go:115-120 | every '_' becomes '-', nothing else changes, the result has no '_', and a name without '_' is returned unchanged |
| `Cmd.WordSepNormalizeIdempotent` | pkg/cmd/cmd.go:115-120 | normalising twice equals normalising once |
| `Cmd.WarnStep` | pkg/cmd/cmd.go:101-112 | the warning variant returns the same name as WordSepNormalize; it warns iff the name has '_' and is not yet in the table; only a warning adds the name |
| `Cmd.WarnOnce` | pkg/cmd/cmd.go:104-107 | a repeated call never warns and leaves the table alone; a name without '_' never warns or touches the table |
| `Cmd.WarnAllOncePerName` | pkg/cmd/cmd.go:101-112 | over any call sequence, each name is warned about at most once, exactly the names with '_' are, and the table holds exactly those |
| `Cmd.FlagNormalizer.constructor` | pkg/cmd/cmd.go:122 | the table starts empty |
| `Cmd.FlagNormalizer.WarnWordSepNormalize` | pkg/cmd/cmd.go:101-112 | the normalised name, whether it warns and the new `underscoreWarnings` table are those of WarnStep |
| `Cmd.PluginWrapperPieces` | pkg/cmd/cmd.go:26-38 | a wrapper is added iff there is a handler, more than one argument and `Find` on `args[1..]` fails; it receives `args[1..]` |
| `Cmd.RunRoot` | pkg/cmd/plugin/plugin.go:297-320 | with the guard of pkg/cmd/cmd.go:26-38, a wrapper is added exactly when there is a handler, more than one argument and `Find` on `args[1..]` fails; it runs exactly when also its name `args[1]` is neither empty, a flag, nor holds a space, and then its outcome is pluginCommandHandler's on `args[1..]` (never the flag-first error); otherwise it is added but never selected |
| `Cmd.DirLookup` | pkg/cmd/cmd_test.go:79-109 | the test handler finds a name exactly when its directory can be stat'ed, is a directory, can be read and holds `fabricator-<name>`, and then returns `<dir>/fabricator-<name>` |
| `Cmd.DispatchScenarios` | pkg/cmd/cmd_test.go:22-31 | with a test directory holding just `fabricator-foo`, `fabricator foo --bar` runs `plugin/testdata/fabricator-foo` with `--bar` and an empty environment; `fabricator version` stays with the built-in command |

## Left out

- **Process execution.** `Executor.Run`, `Output` and `JSONOutput` are left out (pkg/helpers/exec.go:77-138). They cover launching, stream relaying and the interrupt-then-kill goroutine, all OS processes and concurrency. `PluginHandler.Execute` therefore ends with the run request, and errors from the plugin's run are not modelled.
- **Closures.** `pluginCommandHandler` returns a closure that calls Execute later. It is modelled as the `Invocation` that closure would make.
- **Signals.** `WithCancelOnSignal` is left out. It relies on signal channels, goroutines and `sync.Once`.
- **Cobra and pflag wiring.** This covers `NewCmdPlugin`, `NewCmdPluginList`, `NewOptions`, `Options.Complete` with `filepath.SplitList` and `os.Getenv("PATH")`, `NewPluginWrapper`, `NewFabricatorCommand`, and the help and version commands. The search path is a parameter. cobra's `Find` is the oracle `CommandTree.find`. How cobra picks the wrapper is summarised by `Cmd.RunRoot`.
- `Cmd.RunRoot`: that cobra names a command by its `Use` up to the first space and matches names only against the arguments left after dropping flags and empty arguments is cobra's behaviour, whose source is not part of this model. When the wrapper is not selected, what the built-in tree then does (typically cobra's unknown-command error) is not modelled beyond `WrapperNotSelected`.
- **Output.** Message text and printing to `Out`/`ErrOut` are left out. This includes the "compatible plugins" header and the skip notices. Diagnostics and errors are tagged values, and printed plugin lines are a list.
- **Filesystem.** `os.Stat`, `os.ReadDir` and `filepath.Join` are oracles in `Host`. A ReadDir that returns entries together with an error is not modelled.
- `GoStd.ToLower`: only ASCII letters are lowered. No other rune lowers into the letters of the five Windows extensions, so the extension checks are unaffected.
- **Map iteration order.** Go's random map order is an arbitrary choice. `Exec.SetEnv` exposes the chosen order as a ghost result.
- `Exec.WithRoot`: Go shares the environment map between the old and new executor. Maps are values here, so that aliasing is not represented. No code in the core writes to an executor's map after creating it.
- **IO streams.** The streams are an opaque type parameter, carried but never inspected.
- `PluginResolve.PluginCommandHandler` and `PluginResolve.HandlePluginCommand` require a non-empty argument list. With an empty one the source indexes `cmdArgs[0]` and panics. `pluginCommandHandler`'s only caller, `NewPluginWrapper` as set up by pkg/cmd/cmd.go:26-38, passes `args[1:]` only when there are at least two arguments. `HandlePluginCommand` has no caller in the source; its requirement rests on the comment at pkg/cmd/plugin/plugin.go:390.
- `PluginResolve.NonFlagTokens` and `PluginResolve.SearchLongest`: the two loops, written out twice in the source, are shared methods here; the order of lookups is the source's.
- `Cmd.DirLookup`: the test handler's `err` field, which records why the last lookup failed, is not modelled; only the returned path and flag are.
- `Exec.Derive`: a WithEnvMap step is taken by what `Exec.WithEnvMap`'s contract promises, since a function cannot call the method.
- `PluginHandler.Lookup`: the Windows extension loop is a separate method, `ProbeCandidate`. The order of probes is the source's.
- pkg/genericclioptions/version.go, version.go, pkg/helpers/go.go, internal/pkg/util/helpers.go and pkg/fabricator/types.go are not part of this model. They cover version data, shelling out to `go`, process exit helpers and stream and flag types.
