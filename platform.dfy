/**
 * The main process's mapping of Node's `os.platform()` and `process.arch`
 * onto the names the application's resources are organised by.
 */
module Platform {
  import opened Wrappers

  /** The platforms that run the Linux build. */
  predicate LinuxLike(platform: string)
  {
    platform in {"aix", "freebsd", "linux", "openbsd", "android"}
  }

  /** The platforms that run the macOS build. */
  predicate MacLike(platform: string)
  {
    platform in {"darwin", "sunos"}
  }

  /** `getOs`: `None` stands for the `undefined` a platform outside the switch falls through to. */
  function GetOs(platform: string): (os: Option<string>)
    ensures os == Some("linux") <==> LinuxLike(platform)
    ensures os == Some("mac") <==> MacLike(platform)
    ensures os == Some("win") <==> platform == "win32"
    ensures os.None? <==> !LinuxLike(platform) && !MacLike(platform) && platform != "win32"
  {
    if LinuxLike(platform) then Some("linux")
    else if MacLike(platform) then Some("mac")
    else if platform == "win32" then Some("win")
    else None
  }

  const UNSUPPORTED_ARCHITECTURE_PREFIX: string := "Unsupported architecture: "

  /** `getArch`: the architecture name, and the error logged on the console, if any. */
  function GetArch(arch: string): (r: (string, Option<string>))
    ensures r.0 in {"x64", "arm64"}
    ensures r.0 == "arm64" <==> arch == "arm64"
    ensures r.1.None? <==> arch in {"x64", "arm64"}
    ensures r.1.Some? ==> r.1.value == UNSUPPORTED_ARCHITECTURE_PREFIX + arch
  {
    if arch == "x64" then ("x64", None)
    else if arch == "arm64" then ("arm64", None)
    else ("x64", Some(UNSUPPORTED_ARCHITECTURE_PREFIX + arch))
  }

  /** A supported architecture is its own name: the mapping is the identity on them and falls back to x64. */
  lemma ArchFallback(arch: string)
    ensures arch in {"x64", "arm64"} ==> GetArch(arch).0 == arch
    ensures arch !in {"x64", "arm64"} ==> GetArch(arch).0 == "x64"
  {
  }
}
