/**
 * `Hosting.Services.PocketBaseBinaryResolver`: where the PocketBase
 * executable is cached, the release archive it is downloaded from when it is
 * not, and `ResolveAsync`, which prefers the cached file.
 */
module BinaryResolver {
  import opened Wrappers
  import opened Values
  import opened Platform
  import Paths

  const Version := "0.34.0"
  const BaseDownloadUrl := "https://github.com/pocketbase/pocketbase/releases/download"

  /**
   * What the resolver finds on the machine: the platform, the process
   * architecture, the local application data folder and which files exist.
   */
  datatype Machine = Machine(os: OS, arch: Architecture, localAppData: string, fileExists: string -> bool)

  /** `GetOSPlatform`: the `OSPlatform` value, by the name it prints; other platforms throw. */
  function OSPlatform(os: OS): (r: Result<string, Exn>)
    ensures r.Failure? <==> os == OtherOS
    ensures r.Failure? ==> r.error == PlatformNotSupported
    ensures r.Success? ==> r.value != "" && '_' !in r.value
  {
    match os
    case Windows => Success("WINDOWS")
    case Linux => Success("LINUX")
    case OSX => Success("OSX")
    case OtherOS => Failure(PlatformNotSupported)
  }

  /** `GetOSPlatformName`: the name the release archives use. */
  function OSPlatformName(os: OS): (r: Result<string, Exn>)
    ensures r.Failure? <==> os == OtherOS
    ensures r.Failure? ==> r.error == PlatformNotSupported
    ensures os == Windows ==> r == Success("windows")
    ensures os == Linux ==> r == Success("linux")
    ensures os == OSX ==> r == Success("darwin")
  {
    match os
    case Windows => Success("windows")
    case Linux => Success("linux")
    case OSX => Success("darwin")
    case OtherOS => Failure(PlatformNotSupported)
  }

  /** `GetArchitectureString`: only x64 and Arm64 have release archives. */
  function ArchitectureString(a: Architecture): (r: Result<string, Exn>)
    ensures r.Success? <==> a == X64 || a == Arm64
    ensures a == X64 ==> r == Success("amd64")
    ensures a == Arm64 ==> r == Success("arm64")
    ensures r.Failure? ==> r.error == PlatformNotSupported
  {
    match a
    case X64 => Success("amd64")
    case Arm64 => Success("arm64")
    case _ => Failure(PlatformNotSupported)
  }

  /** The cached executable's file name: platform and architecture by their printed names, ".exe" on Windows. */
  function LocalName(os: OS, arch: Architecture): (r: string)
    requires os != OtherOS
  {
    "pocketbase_" + OSPlatform(os).value + "_" + ArchitectureName(arch) + (if os == Windows then ".exe" else "")
  }

  /** The local name starts with "pocketbase_" and ends with ".exe" exactly on Windows. */
  lemma LocalNameShape(os: OS, arch: Architecture)
    requires os != OtherOS
    ensures |LocalName(os, arch)| > 11 && LocalName(os, arch)[..11] == "pocketbase_"
    ensures LocalName(os, arch)[|LocalName(os, arch)| - 4..] == ".exe" <==> os == Windows
  {
    var n := LocalName(os, arch);
    var a := ArchitectureName(arch);
    if os != Windows {
      assert n == "pocketbase_" + OSPlatform(os).value + "_" + a;
      if |a| >= 4 {
        assert n[|n| - 4] == a[|a| - 4];
      } else {
        assert n[|n| - 4] == '_';
      }
    }
  }

  /** `Path.Combine` on the machine's own platform: '\\' on Windows, '/' elsewhere. */
  function CombineOn(os: OS, a: string, b: string): string {
    if os == Windows then Paths.CombineOnWindows(a, b) else Paths.Combine(a, b)
  }

  /** `GetLocalExecutablePath`: `<local application data>/pocketbase/<local name>`; an unknown platform throws. */
  function LocalExecutablePath(m: Machine): (r: Result<string, Exn>)
    ensures r.Failure? <==> m.os == OtherOS
    ensures r.Failure? ==> r.error == PlatformNotSupported
    ensures r.Success? ==> r.value == CombineOn(m.os, CombineOn(m.os, m.localAppData, "pocketbase"), LocalName(m.os, m.arch))
  {
    if m.os == OtherOS then Failure(PlatformNotSupported)
    else Success(CombineOn(m.os, CombineOn(m.os, m.localAppData, "pocketbase"), LocalName(m.os, m.arch)))
  }

  /**
   * Below a folder that does not end with a separator, the executable sits at
   * `<folder>\\pocketbase\\<local name>` on Windows and
   * `<folder>/pocketbase/<local name>` elsewhere.
   */
  lemma LocalExecutablePathSeparators(m: Machine)
    requires m.os != OtherOS
    requires m.localAppData != "" && m.localAppData[|m.localAppData| - 1] !in {'\\', '/', ':'}
    ensures m.os == Windows ==> LocalExecutablePath(m) == Success(m.localAppData + "\\pocketbase\\" + LocalName(m.os, m.arch))
    ensures m.os != Windows ==> LocalExecutablePath(m) == Success(m.localAppData + "/pocketbase/" + LocalName(m.os, m.arch))
  {
    var n := LocalName(m.os, m.arch);
    LocalNameShape(m.os, m.arch);
    assert n[0] == 'p' && n[1] == 'o';
    if m.os == Windows {
      var d := Paths.CombineOnWindows(m.localAppData, "pocketbase");
      assert d == m.localAppData + "\\pocketbase";
      assert d[|d| - 1] == 'e';
      assert Paths.CombineOnWindows(d, n) == d + "\\" + n;
      assert d + "\\" + n == m.localAppData + "\\pocketbase\\" + n;
    } else {
      var d := Paths.Combine(m.localAppData, "pocketbase");
      assert d == m.localAppData + "/pocketbase";
      assert d[|d| - 1] == 'e';
      assert Paths.Combine(d, n) == d + "/" + n;
      assert d + "/" + n == m.localAppData + "/pocketbase/" + n;
    }
  }

  /** The archive extension: "zip" on Windows, "tar.gz" elsewhere. */
  function ArchiveExtension(os: OS): string {
    if os == Windows then "zip" else "tar.gz"
  }

  /**
   * The release archive `DownloadAsync` fetches:
   * `<base>/v<Version>/pocketbase_<Version>_<platform>_<arch>.<ext>`; a
   * platform or architecture without an archive is an error.
   */
  function DownloadUrl(os: OS, arch: Architecture): (r: Result<string, Exn>)
    ensures r.Success? <==> os != OtherOS && (arch == X64 || arch == Arm64)
    ensures r.Success? ==>
      r.value == BaseDownloadUrl + "/v" + Version + "/pocketbase_" + Version + "_"
                 + OSPlatformName(os).value + "_" + ArchitectureString(arch).value + "." + ArchiveExtension(os)
  {
    var platform := OSPlatform(os);
    var archName := ArchitectureString(arch);
    if platform.Failure? then Failure(platform.error)
    else if archName.Failure? then Failure(archName.error)
    else Success(BaseDownloadUrl + "/v" + Version + "/pocketbase_" + Version + "_"
                 + OSPlatformName(os).value + "_" + archName.value + "." + ArchiveExtension(os))
  }

  /** The Windows archive is a ".zip", every other a ".tar.gz". */
  lemma DownloadUrlExtension(os: OS, arch: Architecture)
    requires DownloadUrl(os, arch).Success?
    ensures var u := DownloadUrl(os, arch).value;
      (os == Windows ==> u[|u| - 4..] == ".zip") && (os != Windows ==> u[|u| - 7..] == ".tar.gz")
  {
  }

  /**
   * `DownloadAsync`: the local path when the archive for this machine exists
   * and `fetched` says downloading and unpacking it succeeded; every failure,
   * an unsupported platform or architecture included, is caught and gives null.
   */
  function Download(m: Machine, fetched: string -> bool): (r: Option<string>)
    ensures r.Some? <==> DownloadUrl(m.os, m.arch).Success? && fetched(DownloadUrl(m.os, m.arch).value)
    ensures r.Some? ==> r == Some(LocalExecutablePath(m).value)
  {
    var url := DownloadUrl(m.os, m.arch);
    if url.Failure? || !fetched(url.value) then None
    else Some(LocalExecutablePath(m).value)
  }

  /**
   * `ResolveAsync`: the cached executable when it exists, else the result
   * of downloading it. Computing the local path is outside the download's
   * try block, so an unknown platform throws instead of giving null.
   */
  function Resolve(m: Machine, fetched: string -> bool): (r: Result<Option<string>, Exn>)
    ensures m.os == OtherOS <==> r.Failure?
    ensures r.Failure? ==> r.error == PlatformNotSupported
    ensures r.Success? && m.fileExists(LocalExecutablePath(m).value) ==> r.value == Some(LocalExecutablePath(m).value)
    ensures r.Success? && !m.fileExists(LocalExecutablePath(m).value) ==> r.value == Download(m, fetched)
  {
    var local := LocalExecutablePath(m);
    if local.Failure? then Failure(local.error)
    else if m.fileExists(local.value) then Success(Some(local.value))
    else Success(Download(m, fetched))
  }

  /** A cached executable is found without any download being attempted. */
  lemma CachedNeedsNoDownload(m: Machine, fetched1: string -> bool, fetched2: string -> bool)
    requires m.os != OtherOS && m.fileExists(LocalExecutablePath(m).value)
    ensures Resolve(m, fetched1) == Resolve(m, fetched2) == Success(Some(LocalExecutablePath(m).value))
  {
  }

  /** Whatever happens, a resolved executable path is the machine's local path. */
  lemma ResolvedIsLocalPath(m: Machine, fetched: string -> bool)
    requires Resolve(m, fetched).Success? && Resolve(m, fetched).value.Some?
    ensures Resolve(m, fetched).value.value == LocalExecutablePath(m).value
  {
  }

  /** On an architecture without a release archive, a missing cached file means no executable at all. */
  lemma UnsupportedArchitectureResolvesNothing(m: Machine, fetched: string -> bool)
    requires m.os != OtherOS && m.arch != X64 && m.arch != Arm64
    requires !m.fileExists(LocalExecutablePath(m).value)
    ensures Resolve(m, fetched) == Success(None)
  {
  }
}
