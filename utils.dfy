/**
 * The settings-to-path and URL resolver: platform naming, the release download
 * URL, the version-qualified executable name, the four resolved paths and the
 * settings validation. Every function reads the settings, the host facts and,
 * for the executable path, the filesystem as plain values.
 */
module Utils {
  import opened Wrappers
  import opened Builtins
  import opened Conf
  import opened FileSystems

  const SRC_CSS_MISSING := "No source CSS file specified. Please set TAILWIND_SRC_CSS in your settings."
  const STATICFILES_DIRS_EMPTY := "STATICFILES_DIRS is empty. Please add a path to your static files."

  predicate IsLowerCase(s: string) {
    forall i :: 0 <= i < |s| ==> !IsUpper(s[i])
  }

  /** The operating-system half of `get_system_and_machine`: lower-cased, with `darwin` renamed to `macos`. */
  function NormaliseSystem(raw: string): (r: string)
    ensures IsLowerCase(r)
    ensures r == "macos" <==> Lower(raw) in {"darwin", "macos"}
    ensures Lower(raw) != "darwin" ==> r == Lower(raw)
  {
    var system := Lower(raw);
    if system == "darwin" then "macos" else system
  }

  /** The CPU half of `get_system_and_machine`: lower-cased, with the upstream release names for x86-64 and 64-bit ARM. */
  function NormaliseMachine(raw: string): (r: string)
    ensures IsLowerCase(r)
    ensures r == "x64" <==> Lower(raw) in {"x86_64", "amd64", "x64"}
    ensures r == "arm64" <==> Lower(raw) in {"aarch64", "arm64"}
    ensures Lower(raw) !in {"x86_64", "amd64", "aarch64"} ==> r == Lower(raw)
  {
    var machine := Lower(raw);
    if machine in {"x86_64", "amd64"} then "x64"
    else if machine == "aarch64" then "arm64"
    else machine
  }

  /** `get_system_and_machine()`: both names are in the release vocabulary, which has no `darwin`, `x86_64`, `amd64` or `aarch64`. */
  function SystemAndMachine(host: Host): (r: (string, string))
    ensures IsLowerCase(r.0) && IsLowerCase(r.1)
    ensures r.0 != "darwin" && r.1 !in {"x86_64", "amd64", "aarch64"}
    ensures r.0 == NormaliseSystem(host.system) && r.1 == NormaliseMachine(host.machine)
  {
    (NormaliseSystem(host.system), NormaliseMachine(host.machine))
  }

  /** Normalising an already normalised platform changes nothing. */
  lemma PlatformNormalisationIdempotent(host: Host)
    ensures var (system, machine) := SystemAndMachine(host);
            SystemAndMachine(host.(system := system, machine := machine)) == (system, machine)
  {
    var (system, machine) := SystemAndMachine(host);
    LowerOfLower(system);
    LowerOfLower(machine);
  }

  /** The platform names Python reports on the supported hosts map onto the release vocabulary. */
  lemma SupportedPlatformNames()
    ensures NormaliseSystem("Darwin") == "macos"
    ensures NormaliseSystem("Linux") == "linux"
    ensures NormaliseSystem("Windows") == "windows"
    ensures NormaliseMachine("x86_64") == "x64" && NormaliseMachine("AMD64") == "x64"
    ensures NormaliseMachine("aarch64") == "arm64" && NormaliseMachine("arm64") == "arm64"
  {
    assert Lower("Darwin") == "darwin";
    assert Lower("Linux") == "linux";
    assert Lower("Windows") == "windows";
    assert Lower("AMD64") == "amd64";
    LowerOfLower("x86_64");
    LowerOfLower("aarch64");
    LowerOfLower("arm64");
  }

  /** The executable suffix of a normalised system name. */
  function Extension(system: string): string {
    if system == "windows" then ".exe" else ""
  }

  const GITHUB := "https://github.com/"
  const RELEASES := "/releases/download/v"

  /** `get_download_url()` */
  function DownloadUrl(s: Settings, host: Host): (r: string)
    ensures var (system, machine) := SystemAndMachine(host);
            var release := GITHUB + s.srcRepo + RELEASES + s.version + "/";
            var asset := s.assetName + "-" + system + "-" + machine + Extension(system);
            StartsWith(r, release) && EndsWith(r, asset) && |r| == |release| + |asset|
    ensures OccursAt(r, |GITHUB| + |s.srcRepo| + |RELEASES|, s.version)
    ensures Contains(r, s.version)
    ensures SystemAndMachine(host).0 == "windows" ==> EndsWith(r, ".exe")
  {
    var (system, machine) := SystemAndMachine(host);
    var release := GITHUB + s.srcRepo + RELEASES + s.version + "/";
    var platform := s.assetName + "-" + system + "-" + machine;
    var asset := platform + Extension(system);
    var r := release + asset;
    ConcatBounds(release, asset);
    ConcatBounds(platform, Extension(system));
    ConcatEndsWith(release, platform, Extension(system));
    OccursInMiddle(GITHUB + s.srcRepo + RELEASES, s.version, "/");
    OccursAtExtended(release, asset, |GITHUB + s.srcRepo + RELEASES|, s.version);
    r
  }

  /**
   * The version- and platform-qualified file name of the executable: `tailwindcss-`, the
   * system and the machine, each followed by `-`, then the version and the extension.
   */
  function ExecutableName(s: Settings, host: Host): (r: string)
    ensures StartsWith(r, "tailwindcss-")
    ensures var (system, machine) := SystemAndMachine(host);
            var platform := "tailwindcss-" + (system + "-" + machine + "-");
            && StartsWith(r, platform)
            && EndsWith(r, s.version + Extension(system))
            && |r| == |platform| + |s.version| + |Extension(system)|
            && OccursAt(r, |platform|, s.version)
    ensures Contains(r, s.version)
  {
    var (system, machine) := SystemAndMachine(host);
    var platform := "tailwindcss-" + (system + "-" + machine + "-");
    var r := platform + (s.version + Extension(system));
    ConcatBounds("tailwindcss-", system + "-" + machine + "-");
    ConcatBounds(platform, s.version + Extension(system));
    StartsWithExtended(platform, s.version + Extension(system), "tailwindcss-");
    OccursInMiddle(platform, s.version, Extension(system));
    assert platform + s.version + Extension(system) == r;
    r
  }

  /** `Path(TAILWIND_CLI_PATH).expanduser()` when that setting is truthy, and `None` otherwise. */
  function ConfiguredCliPath(s: Settings, host: Host): (r: Option<string>)
    ensures r.Some? <==> s.cliPath.Some? && s.cliPath.value != ""
    ensures r.Some? ==> r.value == ExpandUser(s.cliPath.value, host.home)
    ensures r.Some? && !StartsWith(s.cliPath.value, "~") ==> r.value == s.cliPath.value
  {
    if s.cliPath.Some? && s.cliPath.value != "" then Some(ExpandUser(s.cliPath.value, host.home)) else None
  }

  /** The configured CLI path names an existing, regular, executable file. */
  predicate UsesConfiguredExecutable(s: Settings, host: Host, fs: FileSystem) {
    ConfiguredCliPath(s, host).Some? && fs.IsExecutableFile(ConfiguredCliPath(s, host).value)
  }

  /** A string that ends with a string containing `sub` contains `sub`. */
  lemma ContainsInSuffix(s: string, t: string, sub: string)
    requires EndsWith(s, t) && Contains(t, sub)
    ensures Contains(s, sub)
  {
    var k :| 0 <= k <= |t| && OccursAt(t, k, sub);
    var d := |s| - |t|;
    assert s[d + k..d + k + |sub|] == t[k..k + |sub|];
    assert OccursAt(s, d + k, sub);
  }

  /** `get_full_cli_path()` */
  function FullCliPath(s: Settings, host: Host, fs: FileSystem): (r: string)
    ensures UsesConfiguredExecutable(s, host, fs) ==> r == ConfiguredCliPath(s, host).value
    ensures !UsesConfiguredExecutable(s, host, fs) && (s.cliPath.None? || s.cliPath.value == "") ==>
              r == Join(s.baseDir, ExecutableName(s, host))
    ensures !UsesConfiguredExecutable(s, host, fs) && s.cliPath.Some? && s.cliPath.value != "" ==>
              r == Join(ExpandUser(s.cliPath.value, host.home), ExecutableName(s, host))
    ensures !UsesConfiguredExecutable(s, host, fs) ==> EndsWith(r, ExecutableName(s, host)) && Contains(r, s.version)
  {
    var configured := ConfiguredCliPath(s, host);
    if configured.Some? && fs.IsExecutableFile(configured.value) then configured.value
    else
      var name := ExecutableName(s, host);
      var r := if configured.None? then Join(s.baseDir, name) else Join(configured.value, name);
      ContainsInSuffix(r, name, s.version);
      r
  }

  /** Outside the escape hatch, the resolved path lies strictly below the configured path, so it is never the configured path itself. */
  lemma CliPathBelowConfigured(s: Settings, host: Host, fs: FileSystem)
    requires ConfiguredCliPath(s, host).Some? && !UsesConfiguredExecutable(s, host, fs)
    ensures |FullCliPath(s, host, fs)| > |ConfiguredCliPath(s, host).value|
    ensures FullCliPath(s, host, fs) != ConfiguredCliPath(s, host).value
  {
    var name := ExecutableName(s, host);
    assert name[0] == 't';
    assert !StartsWith(name, "/");
  }

  /** The resolved CLI path depends on the filesystem only through the configured path's being an executable file. */
  lemma CliPathDependsOnlyOnConfiguredFile(s: Settings, host: Host, fs: FileSystem, fs': FileSystem)
    requires UsesConfiguredExecutable(s, host, fs) == UsesConfiguredExecutable(s, host, fs')
    ensures FullCliPath(s, host, fs) == FullCliPath(s, host, fs')
  {
  }

  /**
   * Under the plugin defaults, and unless `~/.local/bin/` itself is an executable file,
   * the CLI lives in `$HOME/.local/bin/` under its versioned name; the download URL
   * names version 3.4.11.
   */
  lemma DefaultCliPathUnderHome(baseDir: string, staticfilesDirs: Option<seq<string>>, templateDirs: seq<string>, host: Host, fs: FileSystem)
    ensures var s := ProjectDefaults(baseDir, staticfilesDirs, templateDirs);
            !UsesConfiguredExecutable(s, host, fs) ==>
              && FullCliPath(s, host, fs) == TrimTrailingSlashes(host.home) + "/.local/bin/" + ExecutableName(s, host)
              && Contains(FullCliPath(s, host, fs), "3.4.11")
    ensures Contains(DownloadUrl(ProjectDefaults(baseDir, staticfilesDirs, templateDirs), host), "3.4.11")
  {
    var s := ProjectDefaults(baseDir, staticfilesDirs, templateDirs);
    var dir := TrimTrailingSlashes(host.home) + "/.local/bin/";
    assert "~/.local/bin/"[1..] == "/.local/bin/";
    assert ExpandUser("~/.local/bin/", host.home) == dir;
    assert dir[|dir| - 1] == '/';
    assert ExecutableName(s, host)[0] == 't';
  }

  /** A configured directory without a trailing separator gets one before the executable name. */
  lemma ConfiguredDirectoryCliPath(s: Settings, host: Host, fs: FileSystem)
    requires s.cliPath == Some("/opt/bin")
    ensures !UsesConfiguredExecutable(s, host, fs) ==> FullCliPath(s, host, fs) == "/opt/bin/" + ExecutableName(s, host)
  {
    var name := ExecutableName(s, host);
    assert "/opt/bin"[0] == '/' && "/opt/bin"[7] == 'n';
    assert ConfiguredCliPath(s, host) == Some("/opt/bin");
    assert name[0] == 't';
    assert Join("/opt/bin", name) == "/opt/bin/" + name;
  }

  /** `get_full_src_css_path()` */
  function FullSrcCssPath(s: Settings): (r: Result<string, string>)
    ensures r.Failure? <==> s.srcCss.None?
    ensures r.Failure? ==> r.error == SRC_CSS_MISSING
    ensures r.Success? ==> r.value == Join(s.baseDir, s.srcCss.value) && EndsWith(r.value, s.srcCss.value)
  {
    if s.srcCss.None? then Failure(SRC_CSS_MISSING) else Success(Join(s.baseDir, s.srcCss.value))
  }

  /** `STATICFILES_DIRS` is `None` or empty. */
  predicate NoStaticfilesDirs(s: Settings) {
    s.staticfilesDirs.None? || |s.staticfilesDirs.value| == 0
  }

  /** `get_full_dist_css_path()` */
  function FullDistCssPath(s: Settings): (r: Result<string, string>)
    ensures r.Failure? <==> NoStaticfilesDirs(s)
    ensures r.Failure? ==> r.error == STATICFILES_DIRS_EMPTY
    ensures r.Success? ==> r.value == Join(s.staticfilesDirs.value[0], s.distCss) && EndsWith(r.value, s.distCss)
  {
    if NoStaticfilesDirs(s) then Failure(STATICFILES_DIRS_EMPTY)
    else Success(Join(s.staticfilesDirs.value[0], s.distCss))
  }

  /** `get_full_config_file_path()`: it never fails. */
  function FullConfigFilePath(s: Settings): (r: string)
    ensures r == Join(s.baseDir, s.configFile)
    ensures EndsWith(r, s.configFile)
    ensures !StartsWith(s.configFile, "/") ==> StartsWith(r, s.baseDir)
  {
    Join(s.baseDir, s.configFile)
  }

  /** `validate_settings()`: it fails exactly when the dist path cannot be resolved, with the same message. */
  function ValidateSettings(s: Settings): (r: Outcome<string>)
    ensures r.Fail? <==> NoStaticfilesDirs(s)
    ensures r.Pass? <==> FullDistCssPath(s).Success?
    ensures r.Fail? ==> r.error == STATICFILES_DIRS_EMPTY && FullDistCssPath(s) == Failure(r.error)
  {
    if s.staticfilesDirs.None? || |s.staticfilesDirs.value| == 0 then Fail(STATICFILES_DIRS_EMPTY) else Pass
  }
}
