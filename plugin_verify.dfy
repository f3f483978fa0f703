/**
 * The override verifier of the plugin listing (CommandOverrideVerifier in
 * pkg/cmd/plugin/plugin.go): each plugin path is checked for being
 * executable, for repeating a file name already seen (the first path seen
 * under a name keeps it) and for naming a command the built-in command tree
 * already has.
 */
module PluginVerify {
  import opened GoStd
  import opened HostOS
  import opened Probe

  /**
   * The built-in command tree as the verifier consults it: `find(pieces)` is
   * the command path of the command cobra's Find resolves the pieces to, or
   * None when Find returns an error.
   */
  datatype CommandTree = CommandTree(find: seq<string> -> Option<string>)

  /** The diagnostics Verify reports; the listing counts each one as a warning. */
  datatype VerifyError =
    | NilRoot                                             // no command tree to check against
    | NotExecutable(path: string)                         // stat worked, the probe said no
    | UnidentifiedExecutable(path: string)                // stat failed
    | Overshadowed(path: string, existing: string)        // the name was first seen at `existing`
    | OverwritesCommand(binName: string, cmdPath: string) // the tree already has this command

  /** The plugin's file name: the part after the last '/' (also on Windows). */
  function BinName(path: string): string
  {
    LastPiece(path, '/')
  }

  /**
   * The file name is the '/'-free tail of the path: all of it, or the part
   * after a '/'.
   */
  lemma BinNameIsLastSegment(path: string)
    ensures var b := BinName(path);
      && '/' !in b
      && |b| <= |path|
      && path[|path| - |b|..] == b
      && (|b| == |path| || path[|path| - |b| - 1] == '/')
  {
    LastPieceIsSuffix(path, '/');
  }

  /**
   * The command path a plugin file name stands for: its '-'-separated pieces,
   * without the first one (the "fabricator" prefix) when there is more than one.
   */
  function CommandPathOf(binName: string): (cmdPath: seq<string>)
    ensures |cmdPath| >= 1
    ensures forall i :: 0 <= i < |cmdPath| ==> '-' !in cmdPath[i]
    ensures '-' !in binName ==> cmdPath == [binName]
    ensures '-' in binName ==> [Split(binName, '-')[0]] + cmdPath == Split(binName, '-')
  {
    SplitSingle(binName, '-');
    var pieces := Split(binName, '-');
    if |pieces| > 1 then pieces[1..] else pieces
  }

  /**
   * The executability diagnostic for `path`, given what isExecutable
   * reported for it (None: stat failed).
   */
  function ExecutableCheck(probe: Option<bool>, path: string): (errs: seq<VerifyError>)
    ensures |errs| <= 1
    ensures errs == [] <==> probe == Some(true)
    ensures probe.None? ==> errs == [UnidentifiedExecutable(path)]
    ensures probe == Some(false) ==> errs == [NotExecutable(path)]
  {
    match probe
    case None => [UnidentifiedExecutable(path)]
    case Some(isExec) => if isExec then [] else [NotExecutable(path)]
  }

  /**
   * The map after recording `path` under `binName`: first writer wins, so
   * a name already present keeps its path.
   */
  function Register(seen: map<string, string>, binName: string, path: string): (seen': map<string, string>)
    ensures seen'.Keys == seen.Keys + {binName}
    ensures forall b :: b in seen ==> seen'[b] == seen[b]
    ensures binName !in seen ==> seen'[binName] == path
  {
    if binName in seen then seen else seen[binName := path]
  }

  /**
   * What Verify does with the map `seen` for `path`, where `probe` is what
   * isExecutable reports for the path: the diagnostics, in order, and the
   * map afterwards.
   */
  function VerifyStep(root: Option<CommandTree>, seen: map<string, string>, probe: Option<bool>, path: string)
    : (seq<VerifyError>, map<string, string>)
  {
    if root.None? then ([NilRoot], seen)
    else
      var binName := BinName(path);
      var overshadow := if binName in seen then [Overshadowed(path, seen[binName])] else [];
      var overwrite := match root.value.find(CommandPathOf(binName))
        case Some(cmdPath) => [OverwritesCommand(binName, cmdPath)]
        case None => [];
      (ExecutableCheck(probe, path) + overshadow + overwrite, Register(seen, binName, path))
  }

  /**
   * Verify's contract: a nil root gives exactly one error and leaves the map
   * alone; otherwise at most three diagnostics, the path is registered under
   * its file name, an overshadow warning appears exactly when the name was
   * already seen and then names the first path, an overwrite warning exactly
   * when the tree finds the command path, and an executability diagnostic
   * exactly when the probe did not report an executable.
   */
  lemma VerifyStepSpec(root: Option<CommandTree>, seen: map<string, string>, probe: Option<bool>, path: string)
    ensures var (errs, seen') := VerifyStep(root, seen, probe, path);
      root.None? ==> errs == [NilRoot] && seen' == seen
    ensures var (errs, seen') := VerifyStep(root, seen, probe, path);
      var binName := BinName(path);
      root.Some? ==> (
        && |errs| <= 3
        && seen' == Register(seen, binName, path)
        && ((exists i :: 0 <= i < |errs| && errs[i].Overshadowed?) <==> binName in seen)
        && (forall i :: 0 <= i < |errs| && errs[i].Overshadowed? ==> errs[i] == Overshadowed(path, seen[binName]))
        && ((exists i :: 0 <= i < |errs| && errs[i].OverwritesCommand?) <==> root.value.find(CommandPathOf(binName)).Some?)
        && ((exists i :: 0 <= i < |errs| && (errs[i].NotExecutable? || errs[i].UnidentifiedExecutable?))
              <==> probe != Some(true)))
  {
    if root.Some? {
      var errs := VerifyStep(root, seen, probe, path).0;
      var binName := BinName(path);
      var e1 := ExecutableCheck(probe, path);
      var e2 := if binName in seen then [Overshadowed(path, seen[binName])] else [];
      var e3 := errs[|e1| + |e2|..];
      assert errs == e1 + e2 + e3;
      assert |e3| <= 1 && (e3 != [] ==> e3[0].OverwritesCommand?);
      if binName in seen {
        assert errs[|e1|] == Overshadowed(path, seen[binName]);
      }
      if root.value.find(CommandPathOf(binName)).Some? {
        assert errs[|errs| - 1].OverwritesCommand?;
      }
      if probe != Some(true) {
        assert errs[0] == e1[0];
      }
    }
  }

  /** The verifier of one listing pass. */
  class CommandOverrideVerifier {
    const root: Option<CommandTree>
    var seenPlugins: map<string, string>

    constructor (root: Option<CommandTree>)
      ensures this.root == root && seenPlugins == map[]
    {
      this.root := root;
      seenPlugins := map[];
    }

    /** CommandOverrideVerifier.Verify */
    method Verify(h: Host, path: string) returns (errors: seq<VerifyError>)
      modifies this
      ensures (errors, seenPlugins) == VerifyStep(root, old(seenPlugins), IsExecutable(h, path), path)
    {
      if root.None? {
        return [NilRoot];
      }
      var segs := Split(path, '/');
      var binName := segs[|segs| - 1];
      var cmdPath := Split(binName, '-');
      if |cmdPath| > 1 {
        cmdPath := cmdPath[1..];
      }
      assert binName == BinName(path) && cmdPath == CommandPathOf(binName);
      errors := [];
      var isExec := IsExecutable(h, path);
      ghost var e1 := ExecutableCheck(isExec, path);
      if isExec == Some(false) {
        errors := errors + [NotExecutable(path)];
      } else if isExec.None? {
        errors := errors + [UnidentifiedExecutable(path)];
      }
      assert errors == e1;
      ghost var e2 := if binName in seenPlugins then [Overshadowed(path, seenPlugins[binName])] else [];
      if binName in seenPlugins {
        errors := errors + [Overshadowed(path, seenPlugins[binName])];
      } else {
        seenPlugins := seenPlugins[binName := path];
      }
      assert errors == e1 + e2;
      var found := root.value.find(cmdPath);
      ghost var e3 := if found.Some? then [OverwritesCommand(binName, found.value)] else [];
      if found.Some? {
        errors := errors + [OverwritesCommand(binName, found.value)];
      }
      assert errors == e1 + e2 + e3;
    }
  }

  /** The map after verifying `paths` one by one, starting from `seen`, with a command tree. */
  function SeenAfter(seen: map<string, string>, paths: seq<string>): map<string, string>
  {
    if paths == [] then seen
    else var p := paths[|paths| - 1]; Register(SeenAfter(seen, paths[..|paths| - 1]), BinName(p), p)
  }

  /** Verifying one more path registers it over the map of the paths before. */
  lemma SeenAfterSnoc(seen: map<string, string>, paths: seq<string>, p: string)
    ensures SeenAfter(seen, paths + [p]) == Register(SeenAfter(seen, paths), BinName(p), p)
  {
    assert (paths + [p])[..|paths|] == paths;
  }

  /** Verifying `a` and then `b` leaves the map of verifying `a + b`. */
  lemma {:induction false} SeenAfterAppend(seen: map<string, string>, a: seq<string>, b: seq<string>)
    ensures SeenAfter(seen, a + b) == SeenAfter(SeenAfter(seen, a), b)
  {
    if b == [] {
      assert a + b == a;
    } else {
      var init := b[..|b| - 1];
      var p := b[|b| - 1];
      SeenAfterAppend(seen, a, init);
      assert a + b == (a + init) + [p];
      SeenAfterSnoc(seen, a + init, p);
    }
  }

  /** The position of the first path in `paths` with file name `b`. */
  predicate FirstWithName(paths: seq<string>, b: string, j: int) {
    0 <= j < |paths| && BinName(paths[j]) == b && forall j' :: 0 <= j' < j ==> BinName(paths[j']) != b
  }

  /** After a pass the map holds exactly the file names of the verified paths. */
  lemma {:induction false} SeenHoldsNames(paths: seq<string>)
    ensures forall b :: b in SeenAfter(map[], paths) <==> exists j :: 0 <= j < |paths| && BinName(paths[j]) == b
  {
    if paths != [] {
      var n := |paths| - 1;
      var init := paths[..n];
      SeenHoldsNames(init);
      var before := SeenAfter(map[], init);
      var after := SeenAfter(map[], paths);
      assert after.Keys == before.Keys + {BinName(paths[n])};
      forall b | b in after ensures exists j :: 0 <= j < |paths| && BinName(paths[j]) == b {
        if b in before {
          var j :| 0 <= j < |init| && BinName(init[j]) == b;
          assert paths[j] == init[j];
        } else {
          assert BinName(paths[n]) == b;
        }
      }
      forall b | exists j :: 0 <= j < |paths| && BinName(paths[j]) == b ensures b in after {
        var j :| 0 <= j < |paths| && BinName(paths[j]) == b;
        if j < n {
          assert init[j] == paths[j];
        }
      }
    }
  }

  /**
   * First writer wins over a whole pass: starting from an empty map with a
   * command tree, every file name in the map is mapped to the first verified
   * path that had that name.
   */
  lemma {:induction false} SeenKeepsFirstPath(paths: seq<string>)
    ensures forall b :: b in SeenAfter(map[], paths) ==>
      exists j :: FirstWithName(paths, b, j) && SeenAfter(map[], paths)[b] == paths[j]
  {
    if paths != [] {
      var n := |paths| - 1;
      var init := paths[..n];
      SeenKeepsFirstPath(init);
      SeenHoldsNames(init);
      var before := SeenAfter(map[], init);
      var after := SeenAfter(map[], paths);
      forall b | b in after
        ensures exists j :: FirstWithName(paths, b, j) && after[b] == paths[j]
      {
        if b in before {
          var j :| FirstWithName(init, b, j) && before[b] == init[j];
          assert paths[j] == init[j];
          assert forall j' :: 0 <= j' < j ==> paths[j'] == init[j'];
          assert FirstWithName(paths, b, j);
        } else {
          assert b == BinName(paths[n]);
          forall j' | 0 <= j' < n ensures BinName(paths[j']) != b {
            assert paths[j'] == init[j'];
          }
          assert FirstWithName(paths, b, n);
        }
      }
    }
  }

  /**
   * Two plugin files with the same name in different directories: the second
   * one verified is reported as overshadowed by the first, and the map keeps
   * the first.
   */
  lemma SecondIsOvershadowed(root: Option<CommandTree>, first: string, second: string, p1: Option<bool>, p2: Option<bool>)
    requires root.Some? && BinName(first) == BinName(second)
    ensures var seen := VerifyStep(root, map[], p1, first).1;
      && Overshadowed(second, first) in VerifyStep(root, seen, p2, second).0
      && VerifyStep(root, seen, p2, second).1 == seen
      && seen == map[BinName(first) := first]
  {
    var seen := VerifyStep(root, map[], p1, first).1;
    var errs := VerifyStep(root, seen, p2, second).0;
    VerifyStepSpec(root, seen, p2, second);
    var i :| 0 <= i < |errs| && errs[i].Overshadowed?;
    assert errs[i] == Overshadowed(second, first);
  }

  /**
   * A plugin named after a built-in command: "fabricator-<name>" in any
   * directory, for a name without '-' or '/' (such as "version"), has that
   * file name and maps to the command path [name].
   */
  lemma PluginCommandPath(dir: string, name: string)
    requires '-' !in name && '/' !in name
    ensures BinName(dir + "/fabricator-" + name) == "fabricator-" + name
    ensures CommandPathOf("fabricator-" + name) == [name]
  {
    var file := "fabricator-" + name;
    assert BinName(dir + "/" + file) == file by {
      assert '/' !in "fabricator-";
      assert forall i :: 0 <= i < |file| ==> file[i] == if i < 11 then "fabricator-"[i] else name[i - 11];
      LastPieceAfter(dir, file, '/');
      assert dir + "/" + file == dir + ['/'] + file;
    }
    assert dir + "/fabricator-" + name == dir + "/" + file;
    assert CommandPathOf(file) == [name] by {
      assert '-' !in "fabricator";
      assert file == "fabricator" + ['-'] + name;
      SplitAtFirst("fabricator", name, '-');
      SplitSingle(name, '-');
    }
  }
}
