/**
 * What the plugin-dispatch core asks of the operating system, given as
 * oracles: os.Stat, os.ReadDir, filepath.Join and runtime.GOOS, plus the
 * build's OS/platform tag. Nothing here is computed; the core is modelled
 * for every behaviour these oracles may have.
 */
module HostOS {
  import opened GoStd

  /** os.FileMode (a uint32). */
  type FileMode = bv32

  /** fs.ModeDir, the top bit of the mode. */
  const ModeDir: FileMode := 0x8000_0000

  /** The owner, group and other execute bits: octal 0111. */
  const ExecBits: FileMode := 0x49

  /** FileMode.IsDir */
  predicate IsDir(m: FileMode) {
    m & ModeDir != 0
  }

  /** The outcome of os.Stat: a mode, or any error (missing file or other). */
  datatype StatResult = Stat(mode: FileMode) | StatFailed

  /** One entry of an os.ReadDir listing. */
  datatype DirEntry = DirEntry(name: string, isDir: bool)

  /**
   * The outcome of os.ReadDir: the entries, an *os.PathError, or an error
   * of any other kind.
   */
  datatype ReadDirResult = Entries(files: seq<DirEntry>) | PathError | OtherError

  /** The execution host: runtime.GOOS and the filesystem calls the core makes. */
  datatype Host = Host(
    goos: string,
    stat: string -> StatResult,
    readDir: string -> ReadDirResult,
    join: (string, string) -> string)

  predicate IsWindows(h: Host) {
    h.goos == "windows"
  }

  /** The OS and platform identifiers the binary was built with. */
  datatype BuildInfo = BuildInfo(os: string, platform: string)

  /** The extensions Windows treats as executable, in the order they are tried. */
  const WindowsExts: seq<string> := [".bat", ".cmd", ".com", ".exe", ".ps1"]

  predicate IsWindowsExt(ext: string) {
    ext in WindowsExts
  }
}
