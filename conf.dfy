/**
 * The settings the plugin reads (its own `TAILWIND_CLI_*` options with their
 * defaults, and the host project's `BASE_DIR`, `STATICFILES_DIRS` and template
 * directories) and the facts about the running host that it asks the runtime for.
 */
module Conf {
  import opened Wrappers

  // Defaults of the `TAILWIND_CLI_*` options.
  const DEFAULT_VERSION := "3.4.11"
  const DEFAULT_PATH := "~/.local/bin/"
  const DEFAULT_AUTOMATIC_DOWNLOAD := true
  const DEFAULT_DIST_CSS := "css/tailwind.css"
  const DEFAULT_CONFIG_FILE := "tailwind.config.js"
  const DEFAULT_SRC_REPO := "tailwindlabs/tailwindcss"
  const DEFAULT_ASSET_NAME := "tailwindcss"

  /**
   * One snapshot of the settings. `None` stands for a Python `None`;
   * `staticfilesDirs` is `STATICFILES_DIRS`, `templateDirs` is `TEMPLATES[0]["DIRS"]`.
   */
  datatype Settings = Settings(
    baseDir: string,
    staticfilesDirs: Option<seq<string>>,
    templateDirs: seq<string>,
    version: string,
    cliPath: Option<string>,
    automaticDownload: bool,
    srcCss: Option<string>,
    distCss: string,
    configFile: string,
    srcRepo: string,
    assetName: string)

  /** The settings of a project that overrides none of the plugin's options. */
  function ProjectDefaults(baseDir: string, staticfilesDirs: Option<seq<string>>, templateDirs: seq<string>): (s: Settings)
    ensures s.baseDir == baseDir && s.staticfilesDirs == staticfilesDirs && s.templateDirs == templateDirs
    ensures s.version == "3.4.11" && s.cliPath == Some("~/.local/bin/") && s.automaticDownload
    ensures s.srcCss.None? && s.distCss == "css/tailwind.css" && s.configFile == "tailwind.config.js"
    ensures s.srcRepo == "tailwindlabs/tailwindcss" && s.assetName == "tailwindcss"
  {
    Settings(baseDir, staticfilesDirs, templateDirs, DEFAULT_VERSION, Some(DEFAULT_PATH),
             DEFAULT_AUTOMATIC_DOWNLOAD, None, DEFAULT_DIST_CSS, DEFAULT_CONFIG_FILE,
             DEFAULT_SRC_REPO, DEFAULT_ASSET_NAME)
  }

  /**
   * What the command learns from its runtime: `platform.system()`,
   * `platform.machine()`, `$HOME` (for `expanduser`), `sys.executable`, and whether
   * `importlib.util.find_spec` finds `django_extensions` and `werkzeug`.
   */
  datatype Host = Host(
    system: string,
    machine: string,
    home: string,
    python: string,
    hasDjangoExtensions: bool,
    hasWerkzeug: bool)
}
