/**
 * The executable probe. The repository has it twice: findExecutable in
 * pkg/cmd/plugin.go (used by plugin lookup) and isExecutable in
 * pkg/cmd/plugin/plugin.go (used by the override verifier). Both stat the
 * path and then decide by extension on Windows and by mode bits elsewhere.
 */
module Probe {
  import opened GoStd
  import opened HostOS

  /** The lowercased extension is one Windows runs. */
  predicate HasWindowsExt(file: string) {
    IsWindowsExt(ToLower(Ext(file, true)))
  }

  /**
   * findExecutable succeeds (returns a nil error): never when os.Stat fails,
   * and off Windows never for a directory.
   */
  predicate FindExecutable(h: Host, file: string)
    ensures FindExecutable(h, file) ==> h.stat(file).Stat?
    ensures FindExecutable(h, file) && !IsWindows(h) ==> !IsDir(h.stat(file).mode)
  {
    match h.stat(file)
    case StatFailed => false
    case Stat(mode) =>
      if IsWindows(h) then HasWindowsExt(file)
      else !IsDir(mode) && mode & ExecBits != 0
  }

  /**
   * isExecutable: Some(b) for the boolean it returns with a nil error, None
   * when os.Stat failed and its error is handed back.
   */
  function IsExecutable(h: Host, fullPath: string): (r: Option<bool>)
    ensures r.None? <==> h.stat(fullPath).StatFailed?
    ensures r == Some(true) && !IsWindows(h) ==> !IsDir(h.stat(fullPath).mode)
  {
    match h.stat(fullPath)
    case StatFailed => None
    case Stat(mode) =>
      if IsWindows(h) then Some(HasWindowsExt(fullPath))
      else Some(!IsDir(mode) && mode & ExecBits != 0)
  }

  /**
   * The two probes agree: findExecutable succeeds exactly when isExecutable
   * reports true, and a failed stat makes findExecutable fail. On Windows
   * success depends on the extension alone, on other systems on the
   * directory bit and the execute bits.
   */
  lemma ProbesAgree(h: Host, file: string)
    ensures FindExecutable(h, file) <==> IsExecutable(h, file) == Some(true)
    ensures h.stat(file).StatFailed? ==> !FindExecutable(h, file)
    ensures IsWindows(h) ==> (FindExecutable(h, file) <==> h.stat(file).Stat? && HasWindowsExt(file))
    ensures !IsWindows(h) ==>
      (FindExecutable(h, file) <==>
         h.stat(file).Stat? && !IsDir(h.stat(file).mode) && h.stat(file).mode & ExecBits != 0)
  {
  }

  /**
   * On Windows, a path with one of the five extensions appended is
   * executable as soon as it can be stat'ed, even if it is a directory.
   */
  lemma WindowsVariantExecutable(h: Host, path: string, i: nat)
    requires IsWindows(h) && i < |WindowsExts|
    requires h.stat(path + WindowsExts[i]).Stat?
    ensures FindExecutable(h, path + WindowsExts[i])
  {
    var ext := WindowsExts[i];
    assert ext[0] == '.' && |ext| == 4;
    assert forall j :: 0 < j < |ext| ==> ext[j] != '.' && !IsPathSeparator(ext[j], true);
    ExtOfAppended(path, ext, true);
    assert ToLower(ext) == ext;
  }
}
