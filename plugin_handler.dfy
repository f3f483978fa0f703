/**
 * The default plugin handler (pkg/cmd/plugin.go): lookup of a plugin file
 * over the naming prefixes and the search directories, and execution as
 * "run the file with an executor rooted at the empty directory".
 */
module PluginHandler {
  import opened GoStd
  import opened HostOS
  import opened Probe
  import opened Exec

  /** The handler's state: the accepted filename prefixes and the caller's streams. */
  datatype DefaultPluginHandler<IO> = DefaultPluginHandler(validPrefixes: seq<string>, io: IO)

  /** The file tried for `prefix` in `dir`; an empty directory means ".". */
  function Candidate(h: Host, prefix: string, dir: string, filename: string): string {
    h.join(if dir == "" then "." else dir, prefix + "-" + filename)
  }

  /** One of the Windows extension variants of `path` is executable. */
  predicate VariantHit(h: Host, path: string) {
    exists i :: 0 <= i < |WindowsExts| && FindExecutable(h, path + WindowsExts[i])
  }

  /**
   * Lookup accepts `path`: it is executable itself, or, on Windows, one of
   * its extension variants is.
   */
  predicate Hit(h: Host, path: string) {
    FindExecutable(h, path) || (IsWindows(h) && VariantHit(h, path))
  }

  /** The first directory of `dirs` whose candidate for `prefix` is accepted. */
  function FirstHitDir(h: Host, prefix: string, filename: string, dirs: seq<string>): Option<string>
  {
    if dirs == [] then None
    else if Hit(h, Candidate(h, prefix, dirs[0], filename)) then Some(Candidate(h, prefix, dirs[0], filename))
    else FirstHitDir(h, prefix, filename, dirs[1..])
  }

  /** What Lookup returns: the first accepted candidate, prefix-major, or ("", false). */
  function DefaultLookup(h: Host, prefixes: seq<string>, filename: string, paths: seq<string>): (string, bool)
  {
    if prefixes == [] then ("", false)
    else match FirstHitDir(h, prefixes[0], filename, paths)
      case Some(p) => (p, true)
      case None => DefaultLookup(h, prefixes[1..], filename, paths)
  }

  /** (i', j') comes before (i, j) in the order Lookup tries candidates. */
  predicate TriedBefore(i': int, j': int, i: int, j: int) {
    i' < i || (i' == i && j' < j)
  }

  /**
   * For one prefix: a found path is the candidate of some directory, accepted,
   * with every earlier directory's candidate rejected; None means no
   * directory's candidate is accepted.
   */
  lemma {:induction false} FirstHitDirIsFirst(h: Host, prefix: string, filename: string, dirs: seq<string>)
    ensures FirstHitDir(h, prefix, filename, dirs).None? ==>
      forall j :: 0 <= j < |dirs| ==> !Hit(h, Candidate(h, prefix, dirs[j], filename))
    ensures FirstHitDir(h, prefix, filename, dirs).Some? ==>
      exists j :: 0 <= j < |dirs| && FirstHitDir(h, prefix, filename, dirs).value == Candidate(h, prefix, dirs[j], filename)
        && Hit(h, Candidate(h, prefix, dirs[j], filename))
        && forall j' :: 0 <= j' < j ==> !Hit(h, Candidate(h, prefix, dirs[j'], filename))
  {
    if dirs != [] && !Hit(h, Candidate(h, prefix, dirs[0], filename)) {
      var tail := dirs[1..];
      FirstHitDirIsFirst(h, prefix, filename, tail);
      if FirstHitDir(h, prefix, filename, tail).Some? {
        var j :| 0 <= j < |tail| && FirstHitDir(h, prefix, filename, tail).value == Candidate(h, prefix, tail[j], filename)
          && Hit(h, Candidate(h, prefix, tail[j], filename))
          && forall j' :: 0 <= j' < j ==> !Hit(h, Candidate(h, prefix, tail[j'], filename));
        assert dirs[j + 1] == tail[j];
        forall j' | 0 <= j' < j + 1 ensures !Hit(h, Candidate(h, prefix, dirs[j'], filename)) {
          if j' > 0 { assert dirs[j'] == tail[j' - 1]; }
        }
      } else {
        forall j | 0 <= j < |dirs| ensures !Hit(h, Candidate(h, prefix, dirs[j], filename)) {
          if j > 0 { assert dirs[j] == tail[j - 1]; }
        }
      }
    }
  }

  /**
   * First match wins: a found path is the candidate of some (prefix, directory)
   * pair, accepted, and every pair tried before it (prefix-major, then
   * directory order) was rejected; not found means ("", false) and no pair is
   * accepted.
   */
  lemma {:induction false} DefaultLookupFirstMatch(h: Host, prefixes: seq<string>, filename: string, paths: seq<string>)
    ensures var (path, found) := DefaultLookup(h, prefixes, filename, paths);
      !found ==> (
        && path == ""
        && forall i, j :: 0 <= i < |prefixes| && 0 <= j < |paths| ==> !Hit(h, Candidate(h, prefixes[i], paths[j], filename)))
    ensures var (path, found) := DefaultLookup(h, prefixes, filename, paths);
      found ==> (
        exists i, j :: (
          && 0 <= i < |prefixes| && 0 <= j < |paths|
          && path == Candidate(h, prefixes[i], paths[j], filename)
          && Hit(h, path)
          && forall i', j' :: 0 <= i' < |prefixes| && 0 <= j' < |paths| && TriedBefore(i', j', i, j) ==>
               !Hit(h, Candidate(h, prefixes[i'], paths[j'], filename))))
  {
    if prefixes != [] {
      var first := FirstHitDir(h, prefixes[0], filename, paths);
      FirstHitDirIsFirst(h, prefixes[0], filename, paths);
      if first.Some? {
        var j :| 0 <= j < |paths| && first.value == Candidate(h, prefixes[0], paths[j], filename)
          && Hit(h, Candidate(h, prefixes[0], paths[j], filename))
          && forall j' :: 0 <= j' < j ==> !Hit(h, Candidate(h, prefixes[0], paths[j'], filename));
        assert TriedBefore(0, j, 0, j) == false;
        forall i', j' | 0 <= i' < |prefixes| && 0 <= j' < |paths| && TriedBefore(i', j', 0, j)
          ensures !Hit(h, Candidate(h, prefixes[i'], paths[j'], filename)) {
        }
      } else {
        var rest := prefixes[1..];
        DefaultLookupFirstMatch(h, rest, filename, paths);
        var (path, found) := DefaultLookup(h, rest, filename, paths);
        if found {
          var i, j :| 0 <= i < |rest| && 0 <= j < |paths|
            && path == Candidate(h, rest[i], paths[j], filename)
            && Hit(h, path)
            && forall i', j' :: 0 <= i' < |rest| && 0 <= j' < |paths| && TriedBefore(i', j', i, j) ==>
                 !Hit(h, Candidate(h, rest[i'], paths[j'], filename));
          assert prefixes[i + 1] == rest[i];
          forall i', j' | 0 <= i' < |prefixes| && 0 <= j' < |paths| && TriedBefore(i', j', i + 1, j)
            ensures !Hit(h, Candidate(h, prefixes[i'], paths[j'], filename)) {
            if i' > 0 {
              assert prefixes[i'] == rest[i' - 1];
              assert TriedBefore(i' - 1, j', i, j);
            }
          }
        } else {
          forall i, j | 0 <= i < |prefixes| && 0 <= j < |paths|
            ensures !Hit(h, Candidate(h, prefixes[i], paths[j], filename)) {
            if i > 0 { assert prefixes[i] == rest[i - 1]; }
          }
        }
      }
    }
  }

  /**
   * On Windows a candidate whose only executable form is an extension variant
   * is still returned without the extension.
   */
  lemma WindowsVariantFound(h: Host, prefix: string, filename: string, dirs: seq<string>, x: nat)
    requires IsWindows(h) && |dirs| >= 1 && x < |WindowsExts|
    requires h.stat(Candidate(h, prefix, dirs[0], filename) + WindowsExts[x]).Stat?
    ensures DefaultLookup(h, [prefix], filename, dirs) == (Candidate(h, prefix, dirs[0], filename), true)
  {
    WindowsVariantExecutable(h, Candidate(h, prefix, dirs[0], filename), x);
  }

  /**
   * The probes Lookup makes for one candidate: the path itself, then on
   * Windows each extension variant in turn.
   */
  method ProbeCandidate(h: Host, path: string) returns (hit: bool)
    ensures hit == Hit(h, path)
  {
    if FindExecutable(h, path) {
      return true;
    }
    if IsWindows(h) {
      var x := 0;
      while x < |WindowsExts|
        invariant 0 <= x <= |WindowsExts|
        invariant forall y :: 0 <= y < x ==> !FindExecutable(h, path + WindowsExts[y])
      {
        var np := path + WindowsExts[x];
        if FindExecutable(h, np) {
          return true;
        }
        x := x + 1;
      }
    }
    return false;
  }

  /** DefaultPluginHandler.Lookup */
  method Lookup<IO>(handler: DefaultPluginHandler<IO>, h: Host, filename: string, paths: seq<string>)
    returns (path: string, found: bool)
    ensures (path, found) == DefaultLookup(h, handler.validPrefixes, filename, paths)
  {
    var prefixes := handler.validPrefixes;
    var i := 0;
    while i < |prefixes|
      invariant 0 <= i <= |prefixes|
      invariant DefaultLookup(h, prefixes, filename, paths) == DefaultLookup(h, prefixes[i..], filename, paths)
    {
      var prefix := prefixes[i];
      var j := 0;
      while j < |paths|
        invariant 0 <= j <= |paths|
        invariant FirstHitDir(h, prefix, filename, paths) == FirstHitDir(h, prefix, filename, paths[j..])
      {
        var dir := paths[j];
        if dir == "" {
          // an empty directory is read as the current one
          dir := ".";
        }
        path := h.join(dir, prefix + "-" + filename);
        assert path == Candidate(h, prefix, paths[j], filename);
        assert paths[j..][0] == paths[j] && paths[j..][1..] == paths[j + 1..];
        var hit := ProbeCandidate(h, path);
        if hit {
          return path, true;
        }
        j := j + 1;
      }
      assert prefixes[i..][0] == prefix && prefixes[i..][1..] == prefixes[i + 1..];
      i := i + 1;
    }
    return "", false;
  }

  /** The run DefaultPluginHandler.Execute starts: an executable, its arguments and the executor. */
  datatype RunRequest<IO> = RunRequest(executor: Executor<IO>, path: string, args: seq<string>)

  /**
   * DefaultPluginHandler.Execute: the file runs with the given arguments under
   * an executor rooted at "" whose environment is exactly `environment`.
   */
  method Execute<IO>(handler: DefaultPluginHandler<IO>, executablePath: string, cmdArgs: seq<string>, environment: Environment)
    returns (run: RunRequest<IO>)
    ensures run.path == executablePath && run.args == cmdArgs
    ensures run.executor.root == "" && run.executor.io == handler.io
    ensures run.executor.env == Some(environment)
  {
    var executor := WithEnvMap(NewExecutor("", handler.io), environment);
    assert Overlay(Some(map[]), environment) == environment;
    run := RunRequest(executor, executablePath, cmdArgs);
  }
}
