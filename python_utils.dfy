/**
 * The helpers that set up the embedded Python environment with `uv`: the
 * argument lists each `uv` run gets, the rule that turns a finished process
 * into a result, the check that the installed interpreter matches the
 * embedded one, and the order of the installation steps. Processes and the
 * filesystem are inputs: what `uv` does for given arguments, whether files
 * exist, what a directory lists.
 */
module PythonUtils {
  import opened Wrappers
  import opened Decimal

  /** The target operating system, fixed at build time. */
  datatype Os = Windows | Linux | MacOs

  /** The path separator `PathBuf::join` inserts. */
  function Separator(os: Os): string
  {
    if os == Windows then "\\" else "/"
  }

  function Join(os: Os, dir: string, name: string): string
  {
    dir + Separator(os) + name
  }

  // -------------------------------------------------------------------
  // Arguments.

  /** `get_base_args`: run in the app-data directory, without uv's cache. */
  function GetBaseArgs(appdataDir: string): seq<string>
  {
    ["--directory", appdataDir, "--no-cache"]
  }

  /** `file_extension`: `name` inside `baseDir`, with ".exe" appended on Windows only. */
  function FileExtension(os: Os, baseDir: string, name: string): (path: string)
    ensures os == Windows ==> path == Join(os, baseDir, name + ".exe")
    ensures os != Windows ==> path == Join(os, baseDir, name)
  {
    if os == Windows then Join(os, baseDir, name + ".exe") else Join(os, baseDir, name)
  }

  /** The executable name ends in ".exe" exactly on Windows, whatever the name. */
  lemma ExeOnlyOnWindows(os: Os, baseDir: string, name: string)
    requires |name| < 4 || name[|name| - 4..] != ".exe"
    ensures var path := FileExtension(os, baseDir, name);
      (|path| >= 4 && path[|path| - 4..] == ".exe") <==> os == Windows
  {
    var path := FileExtension(os, baseDir, name);
    if os != Windows {
      assert path[|path| - |name|..] == name;
      if |name| >= 4 {
        assert path[|path| - 4..] == name[|name| - 4..];
      } else if |path| >= 4 {
        assert path[|path| - 4..] == path[|path| - 4..|path| - |name|] + name;
        assert name[..] == path[|path| - |name|..];
        assert path[|path| - |name| - 1] == Separator(os)[0];
        assert path[|path| - 4..][3 - |name|] == '/';
      }
    } else {
      assert path[|path| - 4..] == ".exe";
    }
  }

  /** `install_packages`' arguments: "add", the packages, the interpreter to use, then the base arguments. */
  function PackageArgs(packages: seq<string>, pythonDir: string, appdataDir: string): seq<string>
  {
    ["add"] + packages + ["--no-python-downloads", "--python", pythonDir] + GetBaseArgs(appdataDir)
  }

  /** The packages sit right after "add", in the order given, and the base arguments come last. */
  lemma PackageArgsOrder(packages: seq<string>, pythonDir: string, appdataDir: string)
    ensures var args := PackageArgs(packages, pythonDir, appdataDir);
      && |args| == |packages| + 7
      && args[0] == "add"
      && args[1..|packages| + 1] == packages
      && args[|packages| + 1..|packages| + 4] == ["--no-python-downloads", "--python", pythonDir]
      && args[|packages| + 4..] == ["--directory", appdataDir, "--no-cache"]
  {
    var args := PackageArgs(packages, pythonDir, appdataDir);
    assert args == ["add"] + (packages + (["--no-python-downloads", "--python", pythonDir] + GetBaseArgs(appdataDir)));
  }

  /** The argument vector of `install_packages`, grown by `extend` as the source does. */
  method InstallPackagesArgs(packages: seq<string>, pythonDir: string, appdataDir: string) returns (args: seq<string>)
    ensures args == PackageArgs(packages, pythonDir, appdataDir)
  {
    args := ["add"];
    args := args + packages;
    args := args + ["--no-python-downloads", "--python", pythonDir];
    args := args + GetBaseArgs(appdataDir);
  }

  /** The `requires-python` specifier: compatible-release when vague, exact otherwise. */
  function VersionSpec(version: string, isVague: bool): (spec: string)
    ensures |spec| == |version| + 2 && spec[2..] == version
    ensures spec[..2] == (if isVague then "~=" else "==")
  {
    (if isVague then "~=" else "==") + version
  }

  /** Different requests give different specifiers: the version and the vagueness can both be read back. */
  lemma VersionSpecInjective(v1: string, vague1: bool, v2: string, vague2: bool)
    requires VersionSpec(v1, vague1) == VersionSpec(v2, vague2)
    ensures v1 == v2 && vague1 == vague2
  {
    var s := VersionSpec(v1, vague1);
    assert s[2..] == v1 && s[2..] == v2;
    assert s[..2] == (if vague1 then "~=" else "==") == (if vague2 then "~=" else "==");
    assert "~=" != "==" by { assert "~="[0] != "=="[0]; }
  }

  /** The arguments of `uv init` when there is no `pyproject.toml` yet. */
  function InitArgs(spec: string, appdataDir: string): seq<string>
  {
    ["init", "--python", spec, "--bare", "--author-from", "none", "--name", "aperio-env"] + GetBaseArgs(appdataDir)
  }

  /** The arguments of `uv python install`. */
  function PythonInstallArgs(spec: string, appdataDir: string): seq<string>
  {
    ["python", "install", "--no-bin", "--install-dir", appdataDir, "--project", appdataDir, spec] + GetBaseArgs(appdataDir)
  }

  // -------------------------------------------------------------------
  // Running uv.

  /** A finished process: whether it exited successfully and its two streams decoded as UTF-8 (`Err` when they are not). */
  datatype ProcessOutput = ProcessOutput(success: bool, stdout: Result<string, string>, stderr: Result<string, string>)

  /** What running the `uv` binary with given arguments does: `Err` when it cannot be spawned. */
  type Uv = seq<string> -> Result<ProcessOutput, string>

  /** The program `run_uv` starts: `uv` in the resources' `bin` directory. */
  function UvProgram(os: Os, resourceDir: string): string
  {
    FileExtension(os, Join(os, resourceDir, "bin"), "uv")
  }

  /** `run_uv`: an unsuccessful exit is an error carrying stderr; a successful one yields stdout. */
  function RunUv(uv: Uv, args: seq<string>): (r: Result<string, string>)
    ensures uv(args).Err? ==> r == Err(uv(args).error)
    ensures uv(args).Ok? && !uv(args).value.success && uv(args).value.stderr.Ok? ==> r == Err(uv(args).value.stderr.value)
    ensures uv(args).Ok? && uv(args).value.success ==> r == uv(args).value.stdout
    ensures r.Ok? ==> uv(args).Ok? && uv(args).value.success
  {
    match uv(args)
    case Err(e) => Err(e)
    case Ok(output) =>
      if !output.success then
        match output.stderr
        case Ok(text) => Err(text)
        case Err(e) => Err(e)
      else output.stdout
  }

  // -------------------------------------------------------------------
  // The installed interpreter.

  /** Unicode `White_Space`, what `str::trim` removes. */
  predicate IsWhitespace(c: char)
  {
    || ('\U{0009}' <= c <= '\U{000D}') || c == ' ' || c == '\U{0085}' || c == '\U{00A0}' || c == '\U{1680}'
    || ('\U{2000}' <= c <= '\U{200A}') || c == '\U{2028}' || c == '\U{2029}' || c == '\U{202F}' || c == '\U{205F}'
    || c == '\U{3000}'
  }

  /** The index of the first character from `i` on that is not whitespace. */
  function SkipLeading(s: string, i: nat): (k: nat)
    requires i <= |s|
    ensures i <= k <= |s|
    ensures forall m :: i <= m < k ==> IsWhitespace(s[m])
    ensures k < |s| ==> !IsWhitespace(s[k])
    decreases |s| - i
  {
    if i == |s| || !IsWhitespace(s[i]) then i else SkipLeading(s, i + 1)
  }

  /** The end of `s[..j]` once trailing whitespace down to `lo` is dropped. */
  function SkipTrailing(s: string, lo: nat, j: nat): (k: nat)
    requires lo <= j <= |s|
    ensures lo <= k <= j
    ensures forall m :: k <= m < j ==> IsWhitespace(s[m])
    ensures k > lo ==> !IsWhitespace(s[k - 1])
    decreases j
  {
    if j == lo || !IsWhitespace(s[j - 1]) then j else SkipTrailing(s, lo, j - 1)
  }

  /** `str::trim`. */
  function Trim(s: string): (t: string)
  {
    var lo := SkipLeading(s, 0);
    s[lo..SkipTrailing(s, lo, |s|)]
  }

  /**
   * Trimming drops whitespace from both ends only: the result is a slice of
   * `s` that neither starts nor ends with whitespace, and everything cut off
   * is whitespace.
   */
  lemma TrimSpec(s: string)
    ensures var lo := SkipLeading(s, 0); var hi := SkipTrailing(s, lo, |s|);
      && lo <= hi <= |s| && Trim(s) == s[lo..hi]
      && (forall m :: 0 <= m < lo || hi <= m < |s| ==> IsWhitespace(s[m]))
      && (|Trim(s)| > 0 ==> !IsWhitespace(Trim(s)[0]) && !IsWhitespace(Trim(s)[|Trim(s)| - 1]))
  {
    var lo := SkipLeading(s, 0);
    var hi := SkipTrailing(s, lo, |s|);
    if lo < hi {
      assert Trim(s)[0] == s[lo];
      assert Trim(s)[|Trim(s)| - 1] == s[hi - 1];
    }
  }

  /** Text that neither starts nor ends with whitespace is its own trim. */
  lemma TrimKeeps(s: string)
    requires |s| > 0 ==> !IsWhitespace(s[0]) && !IsWhitespace(s[|s| - 1])
    ensures Trim(s) == s
  {
    assert SkipLeading(s, 0) == 0;
    assert s[0..|s|] == s;
  }

  /** `"{major}.{minor}.{micro}"`. */
  function VersionText(major: int, minor: int, micro: int): string
  {
    IntString(major) + "." + IntString(minor) + "." + IntString(micro)
  }

  datatype PythonStatus = PythonStatus(installed: bool, version: Option<string>)

  /** The outcome of the check, and whether it deletes the `python` directory. */
  datatype CheckOutcome = CheckOutcome(status: PythonStatus, removesPythonDir: bool)

  /**
   * `check_python_installed`, given whether the interpreter's executable
   * exists, the embedded interpreter's `version_info`, and what the
   * installed interpreter printed for its version.
   */
  function CheckPythonInstalled(executableExists: bool, embedded: Result<(int, int, int), string>,
                                installedOutput: Result<string, string>): (r: Result<CheckOutcome, string>)
    ensures !executableExists ==> r == Ok(CheckOutcome(PythonStatus(false, None), false))
    ensures executableExists && embedded.Err? ==> r == Err(embedded.error)
    ensures executableExists && embedded.Ok? && installedOutput.Err? ==> r == Err(installedOutput.error)
    ensures executableExists && r.Ok? ==>
      var (major, minor, micro) := embedded.value;
      && r.value.status.version == Some(VersionText(major, minor, micro))
      && (r.value.status.installed <==> Trim(installedOutput.value) == VersionText(major, minor, micro))
      && (r.value.removesPythonDir <==> !r.value.status.installed)
  {
    if !executableExists then Ok(CheckOutcome(PythonStatus(false, None), false))
    else match embedded
      case Err(e) => Err(e)
      case Ok(versionInfo) =>
        var pythonVersion := VersionText(versionInfo.0, versionInfo.1, versionInfo.2);
        match installedOutput
        case Err(e) => Err(e)
        case Ok(printed) =>
          if Trim(printed) != pythonVersion then Ok(CheckOutcome(PythonStatus(false, Some(pythonVersion)), true))
          else Ok(CheckOutcome(PythonStatus(true, Some(pythonVersion)), false))
  }

  /** An interpreter reported as installed is one whose version was compared and matched. */
  lemma InstalledMeansMatched(executableExists: bool, embedded: Result<(int, int, int), string>,
                              installedOutput: Result<string, string>)
    requires CheckPythonInstalled(executableExists, embedded, installedOutput).Ok?
    requires CheckPythonInstalled(executableExists, embedded, installedOutput).value.status.installed
    ensures executableExists && embedded.Ok? && installedOutput.Ok?
    ensures Trim(installedOutput.value) == VersionText(embedded.value.0, embedded.value.1, embedded.value.2)
  {
  }

  // -------------------------------------------------------------------
  // Installing.

  /** The first entry satisfying `p`, as `Iterator::find` over a directory listing. */
  function FirstIndex(entries: seq<string>, p: string -> bool): (r: Option<nat>)
    ensures r.Some? ==> r.value < |entries| && p(entries[r.value]) && forall k :: 0 <= k < r.value ==> !p(entries[k])
    ensures r.None? ==> forall k :: 0 <= k < |entries| ==> !p(entries[k])
    decreases |entries|
  {
    if entries == [] then None
    else if p(entries[0]) then Some(0)
    else match FirstIndex(entries[1..], p)
      case None => None
      case Some(k) => Some(k + 1)
  }

  predicate StartsWith(s: string, prefix: string)
  {
    |prefix| <= |s| && s[..|prefix|] == prefix
  }

  predicate EndsWith(s: string, suffix: string)
  {
    |suffix| <= |s| && s[|s| - |suffix|..] == suffix
  }

  /** The directory `uv python install` leaves behind. */
  predicate IsCpythonDir(name: string)
  {
    StartsWith(name, "cpython")
  }

  /** The bundled OpenCV wheel. */
  predicate IsOpencvWheel(name: string)
  {
    StartsWith(name, "opencv_python_headless") && EndsWith(name, ".whl")
  }

  const NO_CPYTHON_MESSAGE: string := "No cpython directory found in app data dir"
  const NO_WHEEL_MESSAGE: string := "No opencv-python-headless wheel file found in resources/wheel"

  /** One effect of `install_python` on the environment. */
  datatype Step =
    | EditRequiresPython(spec: string)
    | RunUvWith(args: seq<string>)
    | RemoveLeftovers
    | RenameToPython(from: string)

  /** A `pyproject.toml` that exists has its `requires-python` edited; otherwise `uv init` creates one. */
  function ProjectStep(pyprojectExists: bool, spec: string, appdataDir: string): (step: Step)
    ensures pyprojectExists <==> step.EditRequiresPython?
    ensures pyprojectExists ==> step.spec == spec
    ensures !pyprojectExists ==> step.RunUvWith? && |step.args| == 11 && step.args[..3] == ["init", "--python", spec]
                                 && step.args[8..] == GetBaseArgs(appdataDir)
  {
    if pyprojectExists then EditRequiresPython(spec) else RunUvWith(InitArgs(spec, appdataDir))
  }

  /** The environment `install_python` runs in. */
  datatype InstallEnv = InstallEnv(os: Os, appdataDir: string, resourceDir: string, pyprojectExists: bool,
                                   pyprojectEdit: Result<(), string>, uv: Uv,
                                   appdataEntries: seq<string>, wheelEntries: seq<string>)

  /**
   * `install_python`: the steps it performs when every one succeeds, or the
   * first error: the project step, `uv python install`, the leftover
   * clean-up, renaming the `cpython` directory, and adding the wheel.
   */
  function InstallPython(env: InstallEnv, version: string, isVague: bool): (r: Result<seq<Step>, string>)
  {
    var spec := VersionSpec(version, isVague);
    var project := ProjectStep(env.pyprojectExists, spec, env.appdataDir);
    var projectDone :=
      if env.pyprojectExists then env.pyprojectEdit
      else match RunUv(env.uv, project.args) case Err(e) => Err(e) case Ok(_) => Ok(());
    if projectDone.Err? then Err(projectDone.error)
    else
      var installArgs := PythonInstallArgs(spec, env.appdataDir);
      match RunUv(env.uv, installArgs)
      case Err(e) => Err(e)
      case Ok(_) =>
        match FirstIndex(env.appdataEntries, IsCpythonDir)
        case None => Err(NO_CPYTHON_MESSAGE)
        case Some(d) =>
          match FirstIndex(env.wheelEntries, IsOpencvWheel)
          case None => Err(NO_WHEEL_MESSAGE)
          case Some(w) =>
            var wheelPath := Join(env.os, Join(env.os, env.resourceDir, "wheels"), env.wheelEntries[w]);
            var addArgs := PackageArgs([wheelPath], Join(env.os, env.appdataDir, "python"), env.appdataDir);
            match RunUv(env.uv, addArgs)
            case Err(e) => Err(e)
            case Ok(_) =>
              Ok([project, RunUvWith(installArgs), RemoveLeftovers,
                  RenameToPython(Join(env.os, env.appdataDir, env.appdataEntries[d])), RunUvWith(addArgs)])
  }

  /**
   * A completed installation edited or initialised the project according to
   * whether `pyproject.toml` existed, installed the requested version, moved
   * the first `cpython` directory, and added the first OpenCV wheel with the
   * environment's interpreter.
   */
  lemma InstallPythonSpec(env: InstallEnv, version: string, isVague: bool)
    requires InstallPython(env, version, isVague).Ok?
    ensures var steps := InstallPython(env, version, isVague).value;
      var spec := VersionSpec(version, isVague);
      && |steps| == 5
      && steps[0] == ProjectStep(env.pyprojectExists, spec, env.appdataDir)
      && steps[1] == RunUvWith(PythonInstallArgs(spec, env.appdataDir))
      && FirstIndex(env.appdataEntries, IsCpythonDir).Some?
      && steps[3] == RenameToPython(Join(env.os, env.appdataDir, env.appdataEntries[FirstIndex(env.appdataEntries, IsCpythonDir).value]))
      && steps[2] == RemoveLeftovers
      && FirstIndex(env.wheelEntries, IsOpencvWheel).Some?
      && steps[4] == RunUvWith(PackageArgs([Join(env.os, Join(env.os, env.resourceDir, "wheels"),
                                                 env.wheelEntries[FirstIndex(env.wheelEntries, IsOpencvWheel).value])],
                                           Join(env.os, env.appdataDir, "python"), env.appdataDir))
      && steps[4].RunUvWith? && steps[4].args[0] == "add"
      && steps[4].args[|steps[4].args| - 3..] == GetBaseArgs(env.appdataDir)
  {
    var steps := InstallPython(env, version, isVague).value;
    var w := FirstIndex(env.wheelEntries, IsOpencvWheel).value;
    var wheelPath := Join(env.os, Join(env.os, env.resourceDir, "wheels"), env.wheelEntries[w]);
    PackageArgsOrder([wheelPath], Join(env.os, env.appdataDir, "python"), env.appdataDir);
  }

  /**
   * The failures of `install_python` in the order the source meets them: the
   * project step, then `uv python install`, then a missing `cpython`
   * directory, then a missing wheel, then `uv add`; each hides the later ones,
   * and when none happens the installation completes.
   */
  lemma InstallFailureOrder(env: InstallEnv, version: string, isVague: bool)
    ensures var spec := VersionSpec(version, isVague);
      var r := InstallPython(env, version, isVague);
      var initRun := RunUv(env.uv, InitArgs(spec, env.appdataDir));
      var projectOk := if env.pyprojectExists then env.pyprojectEdit.Ok? else initRun.Ok?;
      var installRun := RunUv(env.uv, PythonInstallArgs(spec, env.appdataDir));
      var cpython := FirstIndex(env.appdataEntries, IsCpythonDir);
      var wheel := FirstIndex(env.wheelEntries, IsOpencvWheel);
      && (env.pyprojectExists && env.pyprojectEdit.Err? ==> r == Err(env.pyprojectEdit.error))
      && (!env.pyprojectExists && initRun.Err? ==> r == Err(initRun.error))
      && (projectOk && installRun.Err? ==> r == Err(installRun.error))
      && (projectOk && installRun.Ok? && cpython.None? ==> r == Err(NO_CPYTHON_MESSAGE))
      && (projectOk && installRun.Ok? && cpython.Some? && wheel.None? ==> r == Err(NO_WHEEL_MESSAGE))
      && (projectOk && installRun.Ok? && cpython.Some? && wheel.Some? ==>
            var addRun := RunUv(env.uv, PackageArgs([Join(env.os, Join(env.os, env.resourceDir, "wheels"), env.wheelEntries[wheel.value])],
                                                    Join(env.os, env.appdataDir, "python"), env.appdataDir));
            (addRun.Err? ==> r == Err(addRun.error)) && (addRun.Ok? ==> r.Ok?))
  {
  }
}
