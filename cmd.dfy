/**
 * The root command's plugin dispatch guard and its flag-name normalisers
 * (pkg/cmd/cmd.go): flags spelt with '_' are normalised to '-', and the
 * warning variant reports each such flag name once per process.
 */
module Cmd {
  import opened GoStd
  import opened HostOS
  import opened PluginVerify
  import opened PluginResolve

  /** WordSepNormalizeFunc: every '_' in a flag name becomes '-'. */
  function WordSepNormalize(name: string): (r: string)
    ensures |r| == |name| && '_' !in r
    ensures forall i :: 0 <= i < |name| ==> r[i] == (if name[i] == '_' then '-' else name[i])
    ensures '_' !in name ==> r == name
  {
    ReplaceAllRemoves(name, '_', '-');
    if '_' in name then ReplaceAll(name, '_', '-') else name
  }

  /** Normalising a normalised name changes nothing. */
  lemma WordSepNormalizeIdempotent(name: string)
    ensures WordSepNormalize(WordSepNormalize(name)) == WordSepNormalize(name)
  {
  }

  /**
   * One call of WarnWordSepNormalizeFunc against the table `warned`: the
   * normalised name, whether the warning is printed, and the table after.
   */
  function WarnStep(warned: map<string, bool>, name: string): (r: (string, bool, map<string, bool>))
    ensures r.0 == WordSepNormalize(name)
    ensures r.1 <==> '_' in name && name !in warned
    ensures r.2 == if r.1 then warned[name := true] else warned
  {
    if '_' in name then
      if name !in warned then (WordSepNormalize(name), true, warned[name := true])
      else (WordSepNormalize(name), false, warned)
    else (name, false, warned)
  }

  /**
   * Warn once: after a name has been seen, calling again with it prints
   * nothing and leaves the table alone; a name without '_' never prints and
   * never touches the table.
   */
  lemma WarnOnce(warned: map<string, bool>, name: string)
    ensures var after := WarnStep(warned, name).2;
      !WarnStep(after, name).1 && WarnStep(after, name).2 == after
    ensures '_' !in name ==> !WarnStep(warned, name).1 && WarnStep(warned, name).2 == warned
  {
  }

  /** The names warned about when normalising `names` in order, and the table after. */
  function WarnAll(warned: map<string, bool>, names: seq<string>): (seq<string>, map<string, bool>)
  {
    if names == [] then ([], warned)
    else
      var prev := WarnAll(warned, names[..|names| - 1]);
      var step := WarnStep(prev.1, names[|names| - 1]);
      (if step.1 then prev.0 + [names[|names| - 1]] else prev.0, step.2)
  }

  /**
   * Over any sequence of calls starting from an empty table: each name is
   * warned about at most once, exactly the names with '_' are warned about,
   * and the table then holds exactly those names.
   */
  lemma {:induction false} WarnAllOncePerName(names: seq<string>)
    ensures var (printed, table) := WarnAll(map[], names);
      && Distinct(printed)
      && (forall n :: n in printed <==> n in names && '_' in n)
      && (forall n :: n in table <==> n in names && '_' in n)
  {
    if names != [] {
      var init := names[..|names| - 1];
      var last := names[|names| - 1];
      WarnAllOncePerName(init);
      var (printed, table) := WarnAll(map[], names);
      forall n ensures n in names <==> n in init || n == last {
        if n in names {
          var i :| 0 <= i < |names| && names[i] == n;
          if i < |init| { assert init[i] == n; }
        }
      }
    }
  }

  /** The process's flag normaliser with its underscoreWarnings table. */
  class FlagNormalizer {
    var underscoreWarnings: map<string, bool>

    constructor ()
      ensures underscoreWarnings == map[]
    {
      underscoreWarnings := map[];
    }

    /** WarnWordSepNormalizeFunc; `warned` is whether it prints the warning. */
    method WarnWordSepNormalize(name: string) returns (normalized: string, warned: bool)
      modifies this
      ensures (normalized, warned, underscoreWarnings) == WarnStep(old(underscoreWarnings), name)
    {
      warned := false;
      if '_' in name {
        var nname := ReplaceAll(name, '_', '-');
        if name !in underscoreWarnings {
          warned := true;
          underscoreWarnings := underscoreWarnings[name := true];
        }
        return nname, warned;
      }
      return name, warned;
    }
  }

  /**
   * The dispatch guard of NewDefaultFabricatorCommandWithArgs: the command
   * pieces handed to a new plugin wrapper, or None when none is added. A
   * wrapper is added only with a plugin handler, more than one argument,
   * and a built-in tree that cannot Find the arguments after the program
   * name.
   */
  function PluginWrapperPieces(hasHandler: bool, args: seq<string>, root: CommandTree): (pieces: Option<seq<string>>)
    ensures pieces.Some? <==> hasHandler && |args| > 1 && root.find(args[1..]).None?
    ensures pieces.Some? ==> pieces.value == args[1..] && |pieces.value| >= 1
  {
    if !hasHandler then None
    else if |args| > 1 && root.find(args[1..]).None? then Some(args[1..])
    else None
  }

  /**
   * What running the root command with `args` leads to: a built-in command,
   * the plugin wrapper, or a wrapper that was added but that cobra never
   * selects, so the built-in tree handles the arguments (with its
   * unknown-command error).
   */
  datatype Dispatch = Builtin | Plugin(outcome: Outcome) | WrapperNotSelected

  /**
   * The wrapper is named by its first piece (the part of its Use before the
   * first space), and cobra matches command names against the arguments
   * left after it drops the flags and the empty arguments; so it can be
   * selected only when that piece is neither empty, a flag, nor holds a
   * space.
   */
  predicate WrapperSelectable(piece: string) {
    piece != "" && !IsFlag(piece) && ' ' !in piece
  }

  /**
   * The root command either runs a built-in command or the plugin wrapper,
   * which resolves the plugin for the pieces it was given; a wrapper whose
   * name cannot match is added but never run.
   */
  function RunRoot(hasHandler: bool, args: seq<string>, root: CommandTree, lookup: LookupFn, paths: seq<string>, bi: BuildInfo): (d: Dispatch)
    ensures d.Plugin? <==> hasHandler && |args| > 1 && root.find(args[1..]).None? && WrapperSelectable(args[1])
    ensures d.WrapperNotSelected? <==> hasHandler && |args| > 1 && root.find(args[1..]).None? && !WrapperSelectable(args[1])
    ensures d.Plugin? ==> d.outcome == CommandHandlerOutcome(lookup, paths, args[1..], bi) && d.outcome != FlagsBeforeName(args[1])
  {
    match PluginWrapperPieces(hasHandler, args, root)
    case None => Builtin
    case Some(pieces) =>
      if WrapperSelectable(pieces[0]) then Plugin(CommandHandlerOutcome(lookup, paths, pieces, bi))
      else WrapperNotSelected
  }

  /** `dir` can be stat'ed, is a directory and has an entry called `file`. */
  predicate DirHolds(h: Host, dir: string, file: string) {
    && h.stat(dir).Stat? && IsDir(h.stat(dir).mode)
    && h.readDir(dir).Entries?
    && exists p :: p in h.readDir(dir).files && p.name == file
  }

  /**
   * The test handler's Lookup over the plugin directory `dir`: a stat
   * failure, a non-directory or a ReadDir error finds nothing; otherwise the
   * first entry called `fabricator-<filename>` is found as `<dir>/<name>`.
   * The search paths are ignored.
   */
  function DirLookup(h: Host, dir: string): (lookup: LookupFn)
    ensures forall filename, paths :: lookup(filename, paths).1 <==> DirHolds(h, dir, "fabricator-" + filename)
    ensures forall filename, paths :: lookup(filename, paths) == (if DirHolds(h, dir, "fabricator-" + filename)
      then (dir + "/" + ("fabricator-" + filename), true) else ("", false))
  {
    (filename: string, paths: seq<string>) =>
      var file := "fabricator-" + filename;
      match h.stat(dir)
      case StatFailed => ("", false)
      case Stat(mode) =>
        if !IsDir(mode) then ("", false)
        else match h.readDir(dir)
          case Entries(plugins) =>
            if exists p :: p in plugins && p.name == file then (dir + "/" + file, true) else ("", false)
          case _ => ("", false)
  }

  /**
   * Dispatch with the directory plugin/testdata holding just fabricator-foo:
   * `fabricator foo --bar` runs that plugin with just `--bar` and an empty
   * environment, while `fabricator version` (a built-in) never reaches
   * plugin lookup.
   */
  lemma DispatchScenarios(h: Host, root: CommandTree, paths: seq<string>, bi: BuildInfo)
    requires h.stat("plugin/testdata").Stat? && IsDir(h.stat("plugin/testdata").mode)
    requires h.readDir("plugin/testdata") == Entries([DirEntry("fabricator-foo", false)])
    requires root.find(["foo", "--bar"]).None?
    requires root.find(["version"]).Some?
    ensures RunRoot(true, ["fabricator", "foo", "--bar"], root, DirLookup(h, "plugin/testdata"), paths, bi)
      == Plugin(RunPlugin(Invocation("plugin/testdata/fabricator-foo", ["--bar"], map[])))
    ensures RunRoot(true, ["fabricator", "version"], root, DirLookup(h, "plugin/testdata"), paths, bi) == Builtin
  {
    var args := ["fabricator", "foo", "--bar"];
    assert args[1..] == ["foo", "--bar"];
    assert ["fabricator", "version"][1..] == ["version"];
    var pieces := ["foo", "--bar"];
    assert pieces[1..] == ["--bar"] && IsFlag(pieces[1]);
    assert "foo"[0] != '-' && !IsFlag("foo");
    assert pieces[1..][1..] == [];
    assert Token("foo") == "foo";
    var run := TokenRun(pieces);
    assert run == ["foo"];
    assert run[..1] == ["foo"];
    TestdataLookup(h, paths, bi);
  }

  /**
   * In a directory holding just fabricator-foo, the version-tagged name is
   * missed and the bare name found.
   */
  lemma TestdataLookup(h: Host, paths: seq<string>, bi: BuildInfo)
    requires h.stat("plugin/testdata").Stat? && IsDir(h.stat("plugin/testdata").mode)
    requires h.readDir("plugin/testdata") == Entries([DirEntry("fabricator-foo", false)])
    ensures !DirLookup(h, "plugin/testdata")(TaggedName("foo", bi), paths).1
    ensures DirLookup(h, "plugin/testdata")("foo", paths) == ("plugin/testdata/fabricator-foo", true)
  {
    var entries := [DirEntry("fabricator-foo", false)];
    var tagged := TaggedName("foo", bi);
    assert |"fabricator-" + tagged| > |"fabricator-foo"|;
    assert !DirHolds(h, "plugin/testdata", "fabricator-" + tagged) by {
      forall p | p in entries ensures p.name != "fabricator-" + tagged {
        assert p == entries[0];
      }
    }
    assert "fabricator-" + "foo" == "fabricator-foo";
    assert "plugin/testdata" + "/" + "fabricator-foo" == "plugin/testdata/fabricator-foo";
    assert DirHolds(h, "plugin/testdata", "fabricator-" + "foo") by {
      assert entries[0] in entries && entries[0].name == "fabricator-foo";
    }
  }
}
