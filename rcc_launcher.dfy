/**
 * `StartRCCService`: picks the worker executable for a version tag, checks
 * that it exists, and starts it through `cmd.exe` with the port as its last
 * argument.
 *
 * The file system and the operating system are inputs: `fileExists(path)` stands
 * for `File.Exists(path)` and `starts` for whether `Process.Start` returns
 * true without throwing.
 */
module RccLauncher {
  import opened Wrappers
  import opened Decimal

  const Path2016: string := "C:\\RCC\\2016\\RCC2016.exe"
  const Path2018: string := "C:\\RCC\\2018\\RCC2018.exe"
  const Path2020: string := "C:\\RCC\\Twenty20\\RCC2020.exe"
  const PathRenderer: string := "C:\\RCC\\Twenty20\\Renderer2020.exe"

  /** The four version tags that have an executable. */
  predicate IsKnownVersion(version: string) {
    version == "2016" || version == "2018" || version == "2020" || version == "Renderer"
  }

  /** The version switch; `None` is its ArgumentException "Unknown version". */
  function ExecutablePath(version: string): (r: Option<string>)
    ensures r.Some? <==> IsKnownVersion(version)
    ensures version == "2016" ==> r == Some(Path2016)
    ensures version == "2018" ==> r == Some(Path2018)
    ensures version == "2020" ==> r == Some(Path2020)
    ensures version == "Renderer" ==> r == Some(PathRenderer)
  {
    if version == "2016" then Some(Path2016)
    else if version == "2018" then Some(Path2018)
    else if version == "2020" then Some(Path2020)
    else if version == "Renderer" then Some(PathRenderer)
    else None
  }

  /** The `cmd.exe` arguments: keep the window, run the executable in console, verbose mode on `port`. */
  function LaunchArguments(path: string, port: int): string {
    "/K \"" + path + "\" -console -verbose " + ShowInt(port)
  }

  /** Reads the port back out of arguments built for `path`. */
  function PortOfArguments(path: string, arguments: string): Option<int> {
    var prefix := "/K \"" + path + "\" -console -verbose ";
    if |prefix| <= |arguments| && arguments[..|prefix|] == prefix then ParseInt32(arguments[|prefix|..])
    else None
  }

  datatype LaunchOutcome =
    | UnknownVersion(version: string)                         // ArgumentException, nothing touched
    | ExecutableNotFound(path: string)                        // null, no start attempted
    | StartFailed(path: string, arguments: string)            // null after a start attempt
    | Running(path: string, arguments: string, port: int)     // the started process
  {
    /** Whether `Process.Start` was called. */
    predicate StartAttempted() {
      StartFailed? || Running?
    }
  }

  function StartRccService(port: int, version: string, fileExists: string -> bool, starts: bool): (r: LaunchOutcome)
    ensures r.UnknownVersion? <==> !IsKnownVersion(version)
    ensures r.ExecutableNotFound? <==> IsKnownVersion(version) && !fileExists(ExecutablePath(version).value)
    ensures r.StartAttempted() <==> IsKnownVersion(version) && fileExists(ExecutablePath(version).value)
    ensures r.StartAttempted() ==> r.path == ExecutablePath(version).value && r.arguments == LaunchArguments(r.path, port)
    ensures r.Running? <==> r.StartAttempted() && starts
    ensures r.Running? ==> r.port == port
  {
    match ExecutablePath(version)
    case None => UnknownVersion(version)
    case Some(path) =>
      if !fileExists(path) then ExecutableNotFound(path)
      else if starts then Running(path, LaunchArguments(path, port), port)
      else StartFailed(path, LaunchArguments(path, port))
  }

  /** The launch arguments carry the port: it can be read back from them. */
  lemma PortOfLaunchArguments(path: string, port: int)
    requires IsInt32(port)
    ensures PortOfArguments(path, LaunchArguments(path, port)) == Some(port)
  {
    var prefix := "/K \"" + path + "\" -console -verbose ";
    var arguments := LaunchArguments(path, port);
    assert arguments == prefix + ShowInt(port);
    assert arguments[..|prefix|] == prefix;
    assert arguments[|prefix|..] == ShowInt(port);
    ParseShowInt(port);
  }
}
