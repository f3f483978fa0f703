/**
 * Longest-match plugin resolution (pluginCommandHandler and
 * HandlePluginCommand in pkg/cmd/plugin/plugin.go): the leading non-flag
 * arguments, with '-' rewritten to '_' inside each, are shrunk from the right
 * until the handler's Lookup finds `<tokens joined by '-'>`; the arguments
 * after the matched tokens go to the plugin untouched.
 */
module PluginResolve {
  import opened GoStd
  import opened HostOS
  import Exec

  /**
   * PluginHandler.Lookup as the dispatcher uses it: a file name and the
   * search paths in, the found path and whether one was found out.
   */
  type LookupFn = (string, seq<string>) -> (string, bool)

  /** A call of PluginHandler.Execute: executable, arguments, environment. */
  datatype Invocation = Invocation(path: string, args: seq<string>, env: Exec.Environment)

  /** What a dispatch attempt leads to. */
  datatype Outcome =
    | RunPlugin(inv: Invocation)        // the handler's Execute is called with inv
    | FlagsBeforeName(arg: string)      // error: a flag came before any plugin name token
    | NoPluginFound                     // error: no prefix of the tokens names a plugin
    | NothingRun                        // HandlePluginCommand's nil return: nothing matched

  /** An argument that starts with '-'. */
  predicate IsFlag(arg: string) {
    HasPrefix(arg, "-")
  }

  /** The name token for an argument: every '-' in it becomes '_'. */
  function Token(arg: string): string {
    ReplaceAll(arg, '-', '_')
  }

  /**
   * The tokens of the longest leading run of non-flag arguments, each with
   * '-' rewritten to '_'; the argument after the run, if any, is a flag.
   */
  function TokenRun(args: seq<string>): (run: seq<string>)
    ensures |run| <= |args|
    ensures forall i :: 0 <= i < |run| ==> !IsFlag(args[i]) && run[i] == Token(args[i])
    ensures |run| < |args| ==> IsFlag(args[|run|])
  {
    if args == [] || IsFlag(args[0]) then [] else [Token(args[0])] + TokenRun(args[1..])
  }

  /** Tokens never hold '-': a joined name has '-' only between tokens. */
  lemma TokensHaveNoDash(args: seq<string>)
    ensures forall i :: 0 <= i < |TokenRun(args)| ==> '-' !in TokenRun(args)[i]
  {
    forall i | 0 <= i < |TokenRun(args)| ensures '-' !in TokenRun(args)[i] {
      ReplaceAllRemoves(args[i], '-', '_');
    }
  }

  /** The platform-tagged file name: `<name>-<OS>-<Platform>`. */
  function TaggedName(name: string, bi: BuildInfo): string {
    Join([name, bi.os, bi.platform], "-")
  }

  /**
   * The lookup made for the first k tokens: with a build tag, the tagged
   * name is tried first and its result kept if found; otherwise (or without
   * a tag) the result for the bare joined name.
   */
  function Attempt(lookup: LookupFn, paths: seq<string>, run: seq<string>, k: nat, tag: Option<BuildInfo>): (string, bool)
    requires 1 <= k <= |run|
  {
    var name := Join(run[..k], "-");
    if tag.Some? && lookup(TaggedName(name, tag.value), paths).1 then lookup(TaggedName(name, tag.value), paths)
    else lookup(name, paths)
  }

  /**
   * The largest prefix length j <= k whose attempt succeeds, with the path
   * found there; None when no length from 1 to k succeeds.
   */
  function LongestMatch(lookup: LookupFn, paths: seq<string>, run: seq<string>, k: nat, tag: Option<BuildInfo>)
    : (r: Option<(nat, string)>)
    requires k <= |run|
    ensures r.Some? ==> 1 <= r.value.0 <= k && Attempt(lookup, paths, run, r.value.0, tag) == (r.value.1, true)
    ensures forall j :: (if r.Some? then r.value.0 else 0) < j <= k ==> !Attempt(lookup, paths, run, j, tag).1
    decreases k
  {
    if k == 0 then None
    else if Attempt(lookup, paths, run, k, tag).1 then Some((k, Attempt(lookup, paths, run, k, tag).0))
    else LongestMatch(lookup, paths, run, k - 1, tag)
  }

  /**
   * The names looked up when the search starts at length k: for each length
   * from k down, the tagged name (with a build tag) and then, if that was
   * not found, the bare name; the search stops at the first length whose
   * attempt succeeds.
   */
  ghost function Probed(lookup: LookupFn, paths: seq<string>, run: seq<string>, k: nat, tag: Option<BuildInfo>): seq<string>
    requires k <= |run|
    decreases k
  {
    if k == 0 then []
    else
      var tried := Tried(lookup, paths, Join(run[..k], "-"), tag);
      if Attempt(lookup, paths, run, k, tag).1 then tried
      else tried + Probed(lookup, paths, run, k - 1, tag)
  }

  /**
   * The names looked up for one length, whose joined name is `name`: the
   * tagged name, then the bare one unless the tagged one was found.
   */
  ghost function Tried(lookup: LookupFn, paths: seq<string>, name: string, tag: Option<BuildInfo>): seq<string>
  {
    if tag.None? then [name]
    else if lookup(TaggedName(name, tag.value), paths).1 then [TaggedName(name, tag.value)]
    else [TaggedName(name, tag.value), name]
  }

  /**
   * One round of the search at length k, given what the rounds before it
   * looked up: a failed attempt moves the longest match and the remaining
   * lookups to length k - 1; a successful one is the longest match and ends
   * the lookups.
   */
  lemma SearchRound(lookup: LookupFn, paths: seq<string>, run: seq<string>, k: nat, tag: Option<BuildInfo>, before: seq<string>)
    requires 1 <= k <= |run|
    requires LongestMatch(lookup, paths, run, |run|, tag) == LongestMatch(lookup, paths, run, k, tag)
    requires before + Probed(lookup, paths, run, k, tag) == Probed(lookup, paths, run, |run|, tag)
    ensures var tried := Tried(lookup, paths, Join(run[..k], "-"), tag);
      !Attempt(lookup, paths, run, k, tag).1 ==>
        && LongestMatch(lookup, paths, run, |run|, tag) == LongestMatch(lookup, paths, run, k - 1, tag)
        && (before + tried) + Probed(lookup, paths, run, k - 1, tag) == Probed(lookup, paths, run, |run|, tag)
    ensures var tried := Tried(lookup, paths, Join(run[..k], "-"), tag);
      Attempt(lookup, paths, run, k, tag).1 ==>
        && LongestMatch(lookup, paths, run, |run|, tag) == Some((k, Attempt(lookup, paths, run, k, tag).0))
        && before + tried == Probed(lookup, paths, run, |run|, tag)
  {
    var tried := Tried(lookup, paths, Join(run[..k], "-"), tag);
    if !Attempt(lookup, paths, run, k, tag).1 {
      var rest := Probed(lookup, paths, run, k - 1, tag);
      assert Probed(lookup, paths, run, k, tag) == tried + rest;
      assert before + (tried + rest) == (before + tried) + rest;
    } else {
      assert Probed(lookup, paths, run, k, tag) == tried;
    }
  }

  /**
   * The search makes at most two lookups per length with a build tag and one
   * without, and none at all for k = 0.
   */
  lemma {:induction false} ProbedCount(lookup: LookupFn, paths: seq<string>, run: seq<string>, k: nat, tag: Option<BuildInfo>)
    requires k <= |run|
    ensures var names := Probed(lookup, paths, run, k, tag);
      && |names| <= (if tag.Some? then 2 * k else k)
      && (k == 0 <==> names == [])
  {
    if k > 0 {
      TriedEndsWithAttempt(lookup, paths, run, k, tag);
      if !Attempt(lookup, paths, run, k, tag).1 {
        ProbedCount(lookup, paths, run, k - 1, tag);
      }
    }
  }

  /**
   * The search stops at the first hit: every name looked up but the last is
   * not found, and the last is found exactly when some length up to k
   * succeeds.
   */
  lemma {:induction false} ProbedStopsAtFirstHit(lookup: LookupFn, paths: seq<string>, run: seq<string>, k: nat, tag: Option<BuildInfo>)
    requires 1 <= k <= |run|
    ensures var names := Probed(lookup, paths, run, k, tag);
      && names != []
      && (forall i :: 0 <= i < |names| - 1 ==> !lookup(names[i], paths).1)
      && (lookup(names[|names| - 1], paths).1 <==> LongestMatch(lookup, paths, run, k, tag).Some?)
  {
    var tried := Tried(lookup, paths, Join(run[..k], "-"), tag);
    TriedEndsWithAttempt(lookup, paths, run, k, tag);
    var names := Probed(lookup, paths, run, k, tag);
    if Attempt(lookup, paths, run, k, tag).1 {
      assert names == tried;
      assert LongestMatch(lookup, paths, run, k, tag).Some?;
    } else {
      var rest := Probed(lookup, paths, run, k - 1, tag);
      assert names == tried + rest;
      assert LongestMatch(lookup, paths, run, k, tag) == LongestMatch(lookup, paths, run, k - 1, tag);
      if k - 1 == 0 {
        assert names == tried;
      } else {
        ProbedStopsAtFirstHit(lookup, paths, run, k - 1, tag);
        assert names[|names| - 1] == rest[|rest| - 1];
        forall i | 0 <= i < |names| - 1 ensures !lookup(names[i], paths).1 {
          if i >= |tried| {
            assert names[i] == rest[i - |tried|];
          }
        }
      }
    }
  }

  /**
   * The names tried for length k: at most two with a build tag and one
   * without, all but the last not found, and the last giving the attempt's
   * result.
   */
  lemma TriedEndsWithAttempt(lookup: LookupFn, paths: seq<string>, run: seq<string>, k: nat, tag: Option<BuildInfo>)
    requires 1 <= k <= |run|
    ensures var tried := Tried(lookup, paths, Join(run[..k], "-"), tag);
      && 1 <= |tried| <= (if tag.Some? then 2 else 1)
      && (forall i :: 0 <= i < |tried| - 1 ==> !lookup(tried[i], paths).1)
      && lookup(tried[|tried| - 1], paths) == Attempt(lookup, paths, run, k, tag)
  {
  }

  /**
   * The plugin run a non-empty token run resolves to: the longest matching
   * prefix, unless the path found there is empty; the arguments after the
   * matched tokens are passed on unmodified, with an empty environment.
   */
  function Resolved(lookup: LookupFn, paths: seq<string>, cmdArgs: seq<string>, tag: Option<BuildInfo>): Option<Invocation>
  {
    var run := TokenRun(cmdArgs);
    match LongestMatch(lookup, paths, run, |run|, tag)
    case None => None
    case Some((k, p)) => if p == "" then None else Some(Invocation(p, cmdArgs[k..], map[]))
  }

  /** What pluginCommandHandler decides for `cmdArgs`. */
  function CommandHandlerOutcome(lookup: LookupFn, paths: seq<string>, cmdArgs: seq<string>, bi: BuildInfo): Outcome
    requires |cmdArgs| > 0
  {
    if TokenRun(cmdArgs) == [] then FlagsBeforeName(cmdArgs[0])
    else match Resolved(lookup, paths, cmdArgs, Some(bi))
      case None => NoPluginFound
      case Some(inv) => RunPlugin(inv)
  }

  /** What HandlePluginCommand decides for `cmdArgs`. */
  function HandleOutcome(lookup: LookupFn, paths: seq<string>, cmdArgs: seq<string>): Outcome
    requires |cmdArgs| > 0
  {
    if TokenRun(cmdArgs) == [] then FlagsBeforeName(cmdArgs[0])
    else match Resolved(lookup, paths, cmdArgs, None)
      case None => NothingRun
      case Some(inv) => RunPlugin(inv)
  }

  /**
   * Longest match wins: a resolved run uses the largest prefix length k whose
   * attempt succeeds, receives exactly cmdArgs[k..] and an empty environment;
   * no resolution means no length succeeds or the longest success found an
   * empty path.
   */
  lemma ResolvedIsLongestMatch(lookup: LookupFn, paths: seq<string>, cmdArgs: seq<string>, tag: Option<BuildInfo>)
    ensures var run := TokenRun(cmdArgs);
      Resolved(lookup, paths, cmdArgs, tag).Some? ==>
        var inv := Resolved(lookup, paths, cmdArgs, tag).value;
        var k := |cmdArgs| - |inv.args|;
        && 1 <= k <= |run|
        && inv.args == cmdArgs[k..]
        && inv.env == map[]
        && inv.path != ""
        && Attempt(lookup, paths, run, k, tag) == (inv.path, true)
        && forall j :: k < j <= |run| ==> !Attempt(lookup, paths, run, j, tag).1
    ensures var run := TokenRun(cmdArgs);
      Resolved(lookup, paths, cmdArgs, tag).None? ==>
        || (forall j :: 1 <= j <= |run| ==> !Attempt(lookup, paths, run, j, tag).1)
        || exists k :: (
             && 1 <= k <= |run|
             && Attempt(lookup, paths, run, k, tag) == ("", true)
             && forall j :: k < j <= |run| ==> !Attempt(lookup, paths, run, j, tag).1)
  {
  }

  /**
   * A flag in first position is rejected before any lookup, and only then:
   * the error names that first argument.
   */
  lemma FlagFirstRejected(lookup: LookupFn, paths: seq<string>, cmdArgs: seq<string>, bi: BuildInfo)
    requires |cmdArgs| > 0
    ensures CommandHandlerOutcome(lookup, paths, cmdArgs, bi) == FlagsBeforeName(cmdArgs[0]) <==> IsFlag(cmdArgs[0])
    ensures HandleOutcome(lookup, paths, cmdArgs) == FlagsBeforeName(cmdArgs[0]) <==> IsFlag(cmdArgs[0])
  {
  }

  /**
   * With plugins for both "foo" and "foo-bar" installed, `foo bar --x` runs
   * the "foo-bar" plugin with just `--x`.
   */
  lemma LongerNameWins(lookup: LookupFn, paths: seq<string>, bi: BuildInfo, fooBar: string)
    requires fooBar != ""
    requires !lookup(TaggedName("foo-bar", bi), paths).1
    requires lookup("foo-bar", paths) == (fooBar, true)
    ensures CommandHandlerOutcome(lookup, paths, ["foo", "bar", "--x"], bi) == RunPlugin(Invocation(fooBar, ["--x"], map[]))
  {
    var args := ["foo", "bar", "--x"];
    var run := TokenRun(args);
    assert IsFlag(args[2]);
    assert Token("foo") == "foo" && Token("bar") == "bar";
    assert "foo"[0] != '-' && "bar"[0] != '-';
    assert !IsFlag("foo") && !IsFlag("bar");
    assert args[1..][1..] == args[2..] && args[1..][0] == "bar";
    assert TokenRun(args[2..]) == [];
    assert TokenRun(args[1..]) == ["bar"];
    assert run == ["foo", "bar"];
    assert run[..2] == run;
    assert Join(run, "-") == "foo-bar";
    assert args[2..] == ["--x"];
  }

  /**
   * The first loop of both handlers: the arguments up to the first flag,
   * each with '-' rewritten to '_'.
   */
  method NonFlagTokens(cmdArgs: seq<string>) returns (remainingArgs: seq<string>)
    ensures remainingArgs == TokenRun(cmdArgs)
  {
    ghost var run := TokenRun(cmdArgs);
    remainingArgs := [];
    var i := 0;
    while i < |cmdArgs|
      invariant 0 <= i <= |run| && remainingArgs == run[..i]
    {
      var arg := cmdArgs[i];
      if HasPrefix(arg, "-") {
        break;
      }
      remainingArgs := remainingArgs + [ReplaceAll(arg, '-', '_')];
      i := i + 1;
    }
    assert remainingArgs == run;
  }

  /**
   * The search loop of both handlers: starting from all of `remainingArgs`,
   * look up the joined name (with a build tag, the tagged name first) and
   * drop the last token until a lookup succeeds. It ends with the tokens
   * kept and the path found at the longest successful length, or with no
   * tokens and "" when no length succeeds; the names looked up are those of
   * Probed.
   */
  method SearchLongest(lookup: LookupFn, paths: seq<string>, run: seq<string>, tag: Option<BuildInfo>)
    returns (foundBinaryPath: string, remainingArgs: seq<string>, ghost probes: seq<string>)
    ensures remainingArgs <= run
    ensures match LongestMatch(lookup, paths, run, |run|, tag)
      case None => foundBinaryPath == "" && remainingArgs == []
      case Some((k, path)) => foundBinaryPath == path && |remainingArgs| == k
    ensures probes == Probed(lookup, paths, run, |run|, tag)
  {
    remainingArgs := run;
    probes := [];
    foundBinaryPath := "";
    ghost var matched: Option<(nat, string)> := None;
    ghost var longest := LongestMatch(lookup, paths, run, |run|, tag);
    ghost var all := Probed(lookup, paths, run, |run|, tag);
    while |remainingArgs| > 0
      invariant |remainingArgs| <= |run| && remainingArgs == run[..|remainingArgs|]
      invariant longest == LongestMatch(lookup, paths, run, |remainingArgs|, tag)
      invariant foundBinaryPath == "" && matched == None
      invariant probes + Probed(lookup, paths, run, |remainingArgs|, tag) == all
      decreases |remainingArgs|
    {
      ghost var before := probes;
      ghost var k := |remainingArgs|;
      var tentativeName := Join(remainingArgs, "-");
      ghost var tried := Tried(lookup, paths, tentativeName, tag);
      var result: (string, bool);
      if tag.Some? {
        result := lookup(TaggedName(tentativeName, tag.value), paths);
        probes := probes + [TaggedName(tentativeName, tag.value)];
        if !result.1 {
          result := lookup(tentativeName, paths);
          probes := probes + [tentativeName];
          assert tried == [TaggedName(tentativeName, tag.value), tentativeName];
        } else {
          assert tried == [TaggedName(tentativeName, tag.value)];
        }
      } else {
        result := lookup(tentativeName, paths);
        probes := probes + [tentativeName];
      }
      assert probes == before + tried;
      assert result == Attempt(lookup, paths, run, k, tag);
      SearchRound(lookup, paths, run, k, tag, before);
      if !result.1 {
        assert run[..k][..k - 1] == run[..k - 1];
        remainingArgs := remainingArgs[..|remainingArgs| - 1];
        continue;
      }
      foundBinaryPath := result.0;
      matched := Some((|remainingArgs|, result.0));
      break;
    }
    assert matched == longest;
  }

  /** pluginCommandHandler: the outcome, and the command name it reports. */
  method PluginCommandHandler(lookup: LookupFn, cmdArgs: seq<string>, paths: seq<string>, bi: BuildInfo)
    returns (outcome: Outcome, name: string, ghost probes: seq<string>)
    requires |cmdArgs| > 0
    ensures name == cmdArgs[0]
    ensures outcome == CommandHandlerOutcome(lookup, paths, cmdArgs, bi)
    ensures probes == Probed(lookup, paths, TokenRun(cmdArgs), |TokenRun(cmdArgs)|, Some(bi))
  {
    probes := [];
    name := "";
    if |cmdArgs| > 0 {
      name := cmdArgs[0];
    }
    var remainingArgs := NonFlagTokens(cmdArgs);

    if |remainingArgs| == 0 {
      outcome := FlagsBeforeName(cmdArgs[0]);
      return;
    }

    var foundBinaryPath;
    foundBinaryPath, remainingArgs, probes := SearchLongest(lookup, paths, remainingArgs, Some(bi));

    if |foundBinaryPath| == 0 {
      outcome := NoPluginFound;
      return;
    }
    outcome := RunPlugin(Invocation(foundBinaryPath, cmdArgs[|remainingArgs|..], map[]));
  }

  /** HandlePluginCommand: like pluginCommandHandler without the tagged attempt; no match is not an error. */
  method HandlePluginCommand(lookup: LookupFn, cmdArgs: seq<string>, paths: seq<string>)
    returns (outcome: Outcome, ghost probes: seq<string>)
    requires |cmdArgs| > 0
    ensures outcome == HandleOutcome(lookup, paths, cmdArgs)
    ensures probes == Probed(lookup, paths, TokenRun(cmdArgs), |TokenRun(cmdArgs)|, None)
  {
    probes := [];
    var remainingArgs := NonFlagTokens(cmdArgs);

    if |remainingArgs| == 0 {
      outcome := FlagsBeforeName(cmdArgs[0]);
      return;
    }

    var foundBinaryPath;
    foundBinaryPath, remainingArgs, probes := SearchLongest(lookup, paths, remainingArgs, None);

    if |foundBinaryPath| == 0 {
      outcome := NothingRun;
      return;
    }
    outcome := RunPlugin(Invocation(foundBinaryPath, cmdArgs[|remainingArgs|..], map[]));
  }
}
