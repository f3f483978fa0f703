/**
 * The listing pass of `fabricator plugin list` (Options.Run in
 * pkg/cmd/plugin/plugin.go): every directory of the de-duplicated search
 * path is read, the plugin files in it are listed and verified, and read
 * failures, an empty listing and verifier warnings become the pass's errors.
 */
module PluginList {
  import opened GoStd
  import opened HostOS
  import opened Probe
  import opened PluginPaths
  import opened PluginVerify

  /** The errors Run aggregates, in the order it collects them. */
  datatype RunError =
    | UnreadableDir(dir: string)   // os.ReadDir failed with something other than a PathError
    | NoPluginsFound               // no file was listed
    | WarningsFound(count: nat)    // the verifier reported `count` diagnostics

  /**
   * A directory entry the listing shows: a file (not a directory) with a
   * plugin prefix, and, except on Windows, without one of the Windows
   * executable extensions (compared in lower case).
   */
  predicate Listable(h: Host, f: DirEntry) {
    && !f.isDir
    && ValidlyPrefixed(f.name, ValidPluginFilenamePrefixes)
    && (IsWindows(h) || !IsWindowsExt(ToLower(Ext(f.name, false))))
  }

  /**
   * The state of a listing pass: the lines printed for plugins, the
   * verifier's diagnostics, the directories skipped for a PathError, the
   * directories that could not be read otherwise, and the verifier's map.
   */
  datatype Scan = Scan(
    listed: seq<string>,
    diagnostics: seq<VerifyError>,
    skipped: seq<string>,
    unreadable: seq<string>,
    seen: map<string, string>)

  /** The pass over the entries `files` of `dir`. */
  function ScanFiles(h: Host, root: Option<CommandTree>, nameOnly: bool, dir: string, files: seq<DirEntry>, s: Scan): (r: Scan)
    ensures r.skipped == s.skipped && r.unreadable == s.unreadable
  {
    if files == [] then s
    else
      var s0 := ScanFiles(h, root, nameOnly, dir, files[..|files| - 1], s);
      var f := files[|files| - 1];
      if !Listable(h, f) then s0
      else
        var full := h.join(dir, f.name);
        var step := VerifyStep(root, s0.seen, IsExecutable(h, full), full);
        s0.(listed := s0.listed + [if nameOnly then f.name else full],
            diagnostics := s0.diagnostics + step.0,
            seen := step.1)
  }

  /** The pass over the directories `dirs`. */
  function ScanDirs(h: Host, root: Option<CommandTree>, nameOnly: bool, dirs: seq<string>, s: Scan): Scan
  {
    if dirs == [] then s
    else
      var s0 := ScanDirs(h, root, nameOnly, dirs[..|dirs| - 1], s);
      var dir := dirs[|dirs| - 1];
      if IsBlank(dir) then s0
      else match h.readDir(dir)
        case PathError => s0.(skipped := s0.skipped + [dir])
        case OtherError => s0.(unreadable := s0.unreadable + [dir])
        case Entries(files) => ScanFiles(h, root, nameOnly, dir, files, s0)
  }

  /** One UnreadableDir error per unreadable directory, in order. */
  function UnreadableErrors(dirs: seq<string>): seq<RunError>
  {
    seq(|dirs|, i requires 0 <= i < |dirs| => UnreadableDir(dirs[i]))
  }

  /** Recording one more unreadable directory appends its error. */
  lemma UnreadableErrorsAppend(dirs: seq<string>, dir: string)
    ensures UnreadableErrors(dirs + [dir]) == UnreadableErrors(dirs) + [UnreadableDir(dir)]
  {
  }

  /**
   * The errors a finished pass returns: one per unreadable directory, then
   * "none found" if nothing was listed, then the warning count if any. The
   * pass fails exactly when a directory was unreadable, nothing was listed
   * or the verifier reported something.
   */
  function Errors(s: Scan): (errs: seq<RunError>)
    ensures errs == [] <==> s.unreadable == [] && s.listed != [] && s.diagnostics == []
    ensures NoPluginsFound in errs <==> s.listed == []
    ensures forall n :: WarningsFound(n) in errs <==> n == |s.diagnostics| > 0
    ensures forall d :: UnreadableDir(d) in errs <==> d in s.unreadable
  {
    var errs := UnreadableErrors(s.unreadable)
      + (if s.listed == [] then [NoPluginsFound] else [])
      + (if |s.diagnostics| > 0 then [WarningsFound(|s.diagnostics|)] else []);
    assert forall d :: UnreadableDir(d) in errs ==> d in s.unreadable by {
      forall d | UnreadableDir(d) in errs ensures d in s.unreadable {
        var i :| 0 <= i < |errs| && errs[i] == UnreadableDir(d);
      }
    }
    assert forall d :: d in s.unreadable ==> UnreadableDir(d) in errs by {
      forall d | d in s.unreadable ensures UnreadableDir(d) in errs {
        var i :| 0 <= i < |s.unreadable| && s.unreadable[i] == d;
        assert errs[i] == UnreadableDir(d);
      }
    }
    errs
  }

  /**
   * With --name-only, every name a pass over one directory adds is a plugin
   * file name: it has a plugin prefix and, except on Windows, no Windows
   * executable extension.
   */
  lemma {:induction false} ScanFilesListsPlugins(h: Host, root: Option<CommandTree>, dir: string, files: seq<DirEntry>, s: Scan)
    ensures var s' := ScanFiles(h, root, true, dir, files, s);
      && |s.listed| <= |s'.listed|
      && s'.listed[..|s.listed|] == s.listed
      && forall i :: |s.listed| <= i < |s'.listed| ==>
           && ValidlyPrefixed(s'.listed[i], ValidPluginFilenamePrefixes)
           && (IsWindows(h) || !IsWindowsExt(ToLower(Ext(s'.listed[i], false))))
  {
    if files != [] {
      ScanFilesListsPlugins(h, root, dir, files[..|files| - 1], s);
    }
  }

  /** The same for a whole pass over several directories. */
  lemma {:induction false} ScanDirsListsPlugins(h: Host, root: Option<CommandTree>, dirs: seq<string>, s: Scan)
    ensures var s' := ScanDirs(h, root, true, dirs, s);
      && |s.listed| <= |s'.listed|
      && s'.listed[..|s.listed|] == s.listed
      && forall i :: |s.listed| <= i < |s'.listed| ==>
           && ValidlyPrefixed(s'.listed[i], ValidPluginFilenamePrefixes)
           && (IsWindows(h) || !IsWindowsExt(ToLower(Ext(s'.listed[i], false))))
  {
    if dirs != [] {
      var s0 := ScanDirs(h, root, true, dirs[..|dirs| - 1], s);
      ScanDirsListsPlugins(h, root, dirs[..|dirs| - 1], s);
      var dir := dirs[|dirs| - 1];
      if !IsBlank(dir) && h.readDir(dir).Entries? {
        ScanFilesListsPlugins(h, root, dir, h.readDir(dir).files, s0);
        var s' := ScanDirs(h, root, true, dirs, s);
        forall i | |s.listed| <= i < |s'.listed|
          ensures ValidlyPrefixed(s'.listed[i], ValidPluginFilenamePrefixes)
          ensures IsWindows(h) || !IsWindowsExt(ToLower(Ext(s'.listed[i], false)))
        {
          if i < |s0.listed| {
            assert s'.listed[i] == s'.listed[..|s0.listed|][i];
          }
        }
      }
    }
  }

  /**
   * The lines the listing shows for the entries `files` of `dir`: every
   * Listable entry, in order, by its name with --name-only and joined onto
   * `dir` otherwise; other entries show nothing.
   */
  function Shown(h: Host, nameOnly: bool, dir: string, files: seq<DirEntry>): seq<string>
  {
    if files == [] then []
    else
      var f := files[|files| - 1];
      Shown(h, nameOnly, dir, files[..|files| - 1])
        + (if Listable(h, f) then [if nameOnly then f.name else h.join(dir, f.name)] else [])
  }

  /**
   * The lines shown for a whole search path: those of each directory that is
   * not blank and can be read, in order; blank and unreadable directories
   * show nothing.
   */
  function ShownDirs(h: Host, nameOnly: bool, dirs: seq<string>): seq<string>
  {
    if dirs == [] then []
    else
      var dir := dirs[|dirs| - 1];
      ShownDirs(h, nameOnly, dirs[..|dirs| - 1])
        + (if !IsBlank(dir) && h.readDir(dir).Entries? then Shown(h, nameOnly, dir, h.readDir(dir).files) else [])
  }

  /** The non-blank directories of `dirs` whose ReadDir fails with `failure`, in order. */
  function FailingDirs(h: Host, dirs: seq<string>, failure: ReadDirResult): seq<string>
  {
    if dirs == [] then []
    else
      var dir := dirs[|dirs| - 1];
      FailingDirs(h, dirs[..|dirs| - 1], failure) + (if !IsBlank(dir) && h.readDir(dir) == failure then [dir] else [])
  }

  /**
   * An entry is shown exactly when it is Listable: every Listable entry's
   * line is among the shown ones, and every shown line is that of a
   * Listable entry.
   */
  lemma {:induction false} ShownIsListable(h: Host, nameOnly: bool, dir: string, files: seq<DirEntry>)
    ensures forall f :: f in files && Listable(h, f) ==>
      (if nameOnly then f.name else h.join(dir, f.name)) in Shown(h, nameOnly, dir, files)
    ensures forall x :: x in Shown(h, nameOnly, dir, files) ==>
      exists f :: f in files && Listable(h, f) && x == (if nameOnly then f.name else h.join(dir, f.name))
  {
    if files != [] {
      var init := files[..|files| - 1];
      var last := files[|files| - 1];
      ShownIsListable(h, nameOnly, dir, init);
      assert files == init + [last];
      assert forall f :: f in files ==> f in init || f == last;
      assert forall f :: f in init ==> f in files;
    }
  }

  /**
   * The file loop lists exactly the shown lines of the directory, after
   * what was listed before.
   */
  lemma {:induction false} ScanFilesShows(h: Host, root: Option<CommandTree>, nameOnly: bool, dir: string, files: seq<DirEntry>, s: Scan)
    ensures ScanFiles(h, root, nameOnly, dir, files, s).listed == s.listed + Shown(h, nameOnly, dir, files)
  {
    if files != [] {
      ScanFilesShows(h, root, nameOnly, dir, files[..|files| - 1], s);
    }
  }

  /**
   * A pass over the search path lists exactly the shown lines of its
   * directories, skips exactly the directories whose ReadDir gives a
   * PathError and records as unreadable exactly those failing otherwise;
   * blank directories leave no trace.
   */
  lemma {:induction false} ScanDirsShows(h: Host, root: Option<CommandTree>, nameOnly: bool, dirs: seq<string>, s: Scan)
    ensures var s' := ScanDirs(h, root, nameOnly, dirs, s);
      && s'.listed == s.listed + ShownDirs(h, nameOnly, dirs)
      && s'.skipped == s.skipped + FailingDirs(h, dirs, PathError)
      && s'.unreadable == s.unreadable + FailingDirs(h, dirs, OtherError)
  {
    if dirs != [] {
      var init := dirs[..|dirs| - 1];
      var s0 := ScanDirs(h, root, nameOnly, init, s);
      ScanDirsShows(h, root, nameOnly, init, s);
      var dir := dirs[|dirs| - 1];
      var s' := ScanDirs(h, root, nameOnly, dirs, s);
      assert dirs[..|dirs| - 1] == init;
      if IsBlank(dir) {
        assert s' == s0;
      } else {
        match h.readDir(dir)
        case PathError =>
          assert s' == s0.(skipped := s0.skipped + [dir]);
        case OtherError =>
          assert s' == s0.(unreadable := s0.unreadable + [dir]);
        case Entries(files) =>
          assert s' == ScanFiles(h, root, nameOnly, dir, files, s0);
          ScanFilesShows(h, root, nameOnly, dir, files, s0);
      }
    }
  }

  /**
   * With a command tree, the file loop leaves the verifier's map as if the
   * full paths of the shown entries had been verified one by one.
   */
  lemma {:induction false} ScanFilesSeen(h: Host, root: Option<CommandTree>, nameOnly: bool, dir: string, files: seq<DirEntry>, s: Scan)
    requires root.Some?
    ensures ScanFiles(h, root, nameOnly, dir, files, s).seen == SeenAfter(s.seen, Shown(h, false, dir, files))
  {
    if files != [] {
      var init := files[..|files| - 1];
      var f := files[|files| - 1];
      ScanFilesSeen(h, root, nameOnly, dir, init, s);
      var s0 := ScanFiles(h, root, nameOnly, dir, init, s);
      var shown0 := Shown(h, false, dir, init);
      if Listable(h, f) {
        var full := h.join(dir, f.name);
        VerifyStepSpec(root, s0.seen, IsExecutable(h, full), full);
        assert Shown(h, false, dir, files) == shown0 + [full];
        SeenAfterSnoc(s.seen, shown0, full);
      } else {
        assert Shown(h, false, dir, files) == shown0 + [];
        assert shown0 + [] == shown0;
      }
    }
  }

  /**
   * With a command tree, a pass over the search path leaves the verifier's
   * map as if the full paths of every shown plugin had been verified in
   * order, across all directories.
   */
  lemma {:induction false} ScanDirsSeen(h: Host, root: Option<CommandTree>, nameOnly: bool, dirs: seq<string>, s: Scan)
    requires root.Some?
    ensures ScanDirs(h, root, nameOnly, dirs, s).seen == SeenAfter(s.seen, ShownDirs(h, false, dirs))
  {
    if dirs != [] {
      var init := dirs[..|dirs| - 1];
      var dir := dirs[|dirs| - 1];
      ScanDirsSeen(h, root, nameOnly, init, s);
      var s0 := ScanDirs(h, root, nameOnly, init, s);
      var s' := ScanDirs(h, root, nameOnly, dirs, s);
      var shown0 := ShownDirs(h, false, init);
      if !IsBlank(dir) && h.readDir(dir).Entries? {
        var files := h.readDir(dir).files;
        assert s' == ScanFiles(h, root, nameOnly, dir, files, s0);
        ScanFilesSeen(h, root, nameOnly, dir, files, s0);
        assert ShownDirs(h, false, dirs) == shown0 + Shown(h, false, dir, files);
        SeenAfterAppend(s.seen, shown0, Shown(h, false, dir, files));
      } else {
        assert s'.seen == s0.seen;
        assert ShownDirs(h, false, dirs) == shown0 + [];
        assert shown0 + [] == shown0;
      }
    }
  }

  /**
   * First writer wins across the plugin directories: after a pass with a
   * command tree that starts from an empty map, the map holds exactly the
   * file names of the shown plugins, each mapped to the first shown path
   * with that name.
   */
  lemma PassKeepsFirstWriter(h: Host, root: Option<CommandTree>, nameOnly: bool, dirs: seq<string>)
    requires root.Some?
    ensures var seen := ScanDirs(h, root, nameOnly, dirs, Scan([], [], [], [], map[])).seen;
      var paths := ShownDirs(h, false, dirs);
      && (forall b :: b in seen <==> exists j :: 0 <= j < |paths| && BinName(paths[j]) == b)
      && (forall b :: b in seen ==> exists j :: FirstWithName(paths, b, j) && seen[b] == paths[j])
  {
    ScanDirsSeen(h, root, nameOnly, dirs, Scan([], [], [], [], map[]));
    SeenHoldsNames(ShownDirs(h, false, dirs));
    SeenKeepsFirstPath(ShownDirs(h, false, dirs));
  }

  /**
   * Each listed plugin is verified once and yields at most three
   * diagnostics; with a nil command tree it yields exactly one.
   */
  lemma {:induction false} ScanFilesDiagnostics(h: Host, root: Option<CommandTree>, nameOnly: bool, dir: string, files: seq<DirEntry>, s: Scan)
    ensures var s' := ScanFiles(h, root, nameOnly, dir, files, s);
      && |s.listed| <= |s'.listed|
      && |s.diagnostics| <= |s'.diagnostics| <= |s.diagnostics| + 3 * (|s'.listed| - |s.listed|)
      && (root.None? ==> |s'.diagnostics| - |s.diagnostics| == |s'.listed| - |s.listed|)
  {
    if files != [] {
      var s0 := ScanFiles(h, root, nameOnly, dir, files[..|files| - 1], s);
      ScanFilesDiagnostics(h, root, nameOnly, dir, files[..|files| - 1], s);
      var f := files[|files| - 1];
      if Listable(h, f) {
        var full := h.join(dir, f.name);
        VerifyStepSpec(root, s0.seen, IsExecutable(h, full), full);
      }
    }
  }

  /** The same for a whole pass over several directories. */
  lemma {:induction false} ScanDirsDiagnostics(h: Host, root: Option<CommandTree>, nameOnly: bool, dirs: seq<string>, s: Scan)
    ensures var s' := ScanDirs(h, root, nameOnly, dirs, s);
      && |s.listed| <= |s'.listed|
      && |s.diagnostics| <= |s'.diagnostics| <= |s.diagnostics| + 3 * (|s'.listed| - |s.listed|)
      && (root.None? ==> |s'.diagnostics| - |s.diagnostics| == |s'.listed| - |s.listed|)
  {
    if dirs != [] {
      var s0 := ScanDirs(h, root, nameOnly, dirs[..|dirs| - 1], s);
      ScanDirsDiagnostics(h, root, nameOnly, dirs[..|dirs| - 1], s);
      var dir := dirs[|dirs| - 1];
      if !IsBlank(dir) && h.readDir(dir).Entries? {
        ScanFilesDiagnostics(h, root, nameOnly, dir, h.readDir(dir).files, s0);
      }
    }
  }

  /**
   * A pass that lists a plugin without a command tree fails with exactly as
   * many warnings as plugins it listed.
   */
  lemma NilRootWarnsPerPlugin(h: Host, nameOnly: bool, dirs: seq<string>)
    ensures var s := ScanDirs(h, None, nameOnly, dirs, Scan([], [], [], [], map[]));
      s.listed != [] ==> WarningsFound(|s.listed|) in Errors(s)
  {
    ScanDirsDiagnostics(h, None, nameOnly, dirs, Scan([], [], [], [], map[]));
  }

  /**
   * Off Windows a batch file is not listed even in upper case, while on
   * Windows it is.
   */
  lemma WindowsExecutablesHiddenElsewhere(h: Host)
    ensures !IsWindows(h) ==> !Listable(h, DirEntry("fabricator-foo.BAT", false))
    ensures IsWindows(h) ==> Listable(h, DirEntry("fabricator-foo.BAT", false))
  {
    BatchPluginName();
  }

  /** "fabricator-foo.BAT" has a plugin prefix and, in lower case, the extension ".bat". */
  lemma BatchPluginName()
    ensures ValidlyPrefixed("fabricator-foo.BAT", ValidPluginFilenamePrefixes)
    ensures IsWindowsExt(ToLower(Ext("fabricator-foo.BAT", false)))
  {
    var name := "fabricator-foo.BAT";
    assert HasPrefix(name, ValidPluginFilenamePrefixes[0] + "-");
    assert ToLower(Ext(name, false)) == ".bat" by {
      assert name == "fabricator-foo" + ".BAT";
      ExtOfAppended("fabricator-foo", ".BAT", false);
      assert ToLower(".BAT") == ".bat" by {
        var r := ToLower(".BAT");
        assert r[0] == '.' && r[1] == 'b' && r[2] == 'a' && r[3] == 't';
      }
    }
    assert WindowsExts[0] == ".bat";
  }

  /** plugin list's options: the verifier, --name-only and the search path. */
  class Options {
    var verifier: CommandOverrideVerifier
    var nameOnly: bool
    var pluginPaths: seq<string>

    constructor (verifier: CommandOverrideVerifier, nameOnly: bool, pluginPaths: seq<string>)
      ensures this.verifier == verifier && this.nameOnly == nameOnly && this.pluginPaths == pluginPaths
    {
      this.verifier := verifier;
      this.nameOnly := nameOnly;
      this.pluginPaths := pluginPaths;
    }

    /**
     * The file loop of Run for the entries `files` of `dir`: lists the
     * plugin files among them, verifies each and counts the diagnostics.
     */
    method ListEntries(h: Host, dir: string, files: seq<DirEntry>, ghost s0: Scan,
                       listed0: seq<string>, diagnostics0: seq<VerifyError>,
                       pluginsFound0: bool, isFirstFile0: bool, pluginWarnings0: nat)
      returns (listed: seq<string>, diagnostics: seq<VerifyError>,
               pluginsFound: bool, isFirstFile: bool, pluginWarnings: nat)
      requires s0.listed == listed0 && s0.diagnostics == diagnostics0 && s0.seen == verifier.seenPlugins
      requires pluginWarnings0 == |diagnostics0| && pluginsFound0 == (listed0 != []) && isFirstFile0 == (listed0 == [])
      modifies verifier
      ensures var s := ScanFiles(h, verifier.root, nameOnly, dir, files, s0);
        listed == s.listed && diagnostics == s.diagnostics && verifier.seenPlugins == s.seen
      ensures pluginWarnings == |diagnostics| && pluginsFound == (listed != []) && isFirstFile == (listed == [])
    {
      var v := verifier;
      ghost var root := v.root;
      listed, diagnostics, pluginsFound, isFirstFile, pluginWarnings :=
        listed0, diagnostics0, pluginsFound0, isFirstFile0, pluginWarnings0;
      for k := 0 to |files|
        invariant var s := ScanFiles(h, root, nameOnly, dir, files[..k], s0);
          listed == s.listed && diagnostics == s.diagnostics && v.seenPlugins == s.seen
        invariant pluginWarnings == |diagnostics|
        invariant pluginsFound == (listed != []) && isFirstFile == (listed == [])
      {
        var f := files[k];
        assert files[..k + 1][..k] == files[..k];
        if f.isDir {
          continue;
        }
        var valid := HasValidPrefix(f.name, ValidPluginFilenamePrefixes);
        if !valid {
          continue;
        }
        if !IsWindows(h) {
          var fileExt := ToLower(Ext(f.name, false));
          if IsWindowsExt(fileExt) {
            continue;
          }
        }

        if isFirstFile {
          pluginsFound := true;
          isFirstFile := false;
        }

        var pluginPath := f.name;
        if !nameOnly {
          pluginPath := h.join(dir, pluginPath);
        }
        listed := listed + [pluginPath];
        var verrs := v.Verify(h, h.join(dir, f.name));
        diagnostics := diagnostics + verrs;
        pluginWarnings := pluginWarnings + |verrs|;
      }
      assert files[..|files|] == files;
    }

    /**
     * Options.Run: the plugin lines printed, the diagnostics printed under
     * them, the directories skipped with a notice, and the errors returned
     * (none: the pass succeeded). The verifier's map ends as the pass leaves it.
     */
    method Run(h: Host) returns (listed: seq<string>, diagnostics: seq<VerifyError>, skipped: seq<string>, errs: seq<RunError>)
      modifies verifier
      ensures var s := ScanDirs(h, verifier.root, nameOnly, Dedup(pluginPaths), Scan([], [], [], [], old(verifier.seenPlugins)));
        && listed == s.listed
        && diagnostics == s.diagnostics
        && skipped == s.skipped
        && verifier.seenPlugins == s.seen
        && errs == Errors(s)
      ensures verifier.root.Some? ==>
        verifier.seenPlugins == SeenAfter(old(verifier.seenPlugins), ShownDirs(h, false, Dedup(pluginPaths)))
    {
      var v := verifier;
      ghost var root := v.root;
      var pluginsFound := false;
      var isFirstFile := true;
      var pluginErrors: seq<RunError> := [];
      var pluginWarnings: nat := 0;
      listed, diagnostics, skipped := [], [], [];
      ghost var unreadable: seq<string> := [];
      ghost var start := Scan([], [], [], [], v.seenPlugins);

      var dirs := UniquePathsList(pluginPaths);
      for d := 0 to |dirs|
        invariant var s := ScanDirs(h, root, nameOnly, dirs[..d], start);
          && listed == s.listed && diagnostics == s.diagnostics && skipped == s.skipped
          && unreadable == s.unreadable && v.seenPlugins == s.seen
        invariant pluginErrors == UnreadableErrors(unreadable)
        invariant pluginWarnings == |diagnostics|
        invariant pluginsFound == (listed != []) && isFirstFile == (listed == [])
      {
        var dir := dirs[d];
        assert dirs[..d + 1][..d] == dirs[..d];
        if IsBlank(dir) {
          continue;
        }

        var files := h.readDir(dir);
        if files.PathError? {
          skipped := skipped + [dir];
          continue;
        }
        if files.OtherError? {
          UnreadableErrorsAppend(unreadable, dir);
          pluginErrors := pluginErrors + [UnreadableDir(dir)];
          unreadable := unreadable + [dir];
          continue;
        }

        ghost var s0 := ScanDirs(h, root, nameOnly, dirs[..d], start);
        listed, diagnostics, pluginsFound, isFirstFile, pluginWarnings :=
          ListEntries(h, dir, files.files, s0, listed, diagnostics, pluginsFound, isFirstFile, pluginWarnings);
      }
      assert dirs[..|dirs|] == dirs;

      if !pluginsFound {
        pluginErrors := pluginErrors + [NoPluginsFound];
      }
      if pluginWarnings > 0 {
        pluginErrors := pluginErrors + [WarningsFound(pluginWarnings)];
      }
      errs := pluginErrors;
      if root.Some? {
        assert v.seenPlugins == SeenAfter(start.seen, ShownDirs(h, false, dirs)) by {
          ScanDirsSeen(h, root, nameOnly, dirs, start);
        }
      }
    }
  }
}
