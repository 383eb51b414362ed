/**
 * The root `PocketBaseBinaryResolver`: the name of the bundled server binary
 * for the current platform.
 */
module ServerBinaryResolver {
  import opened Platform

  /** `Resolve`: a name for every platform, Windows first, then macOS, Linux for the rest. */
  function Resolve(os: OS): (r: string)
    ensures os == Windows <==> r == "pb-server.exe"
    ensures os == OSX <==> r == "pb-server-macos"
    ensures os != Windows && os != OSX <==> r == "pb-server-linux"
  {
    if os == Windows then "pb-server.exe"
    else if os == OSX then "pb-server-macos"
    else "pb-server-linux"
  }

  /** Only the Windows name carries the ".exe" extension. */
  lemma ExeOnlyOnWindows(os: OS)
    ensures |Resolve(os)| >= 4 && (Resolve(os)[|Resolve(os)| - 4..] == ".exe" <==> os == Windows)
  {
    if os != Windows {
      assert Resolve(os)[|Resolve(os)| - 1] != 'e';
    }
  }
}
