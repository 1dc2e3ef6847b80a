# django-tailwind-cli, modelled in Dafny

This project models the core of `django-tailwind-cli`, a Django app that drives the
standalone Tailwind CSS command-line compiler. Three pieces are modelled.

- **Settings resolver** (`utils.py`). It normalises the platform names into the
  release naming scheme. It builds the release download URL and the versioned
  executable name. It resolves the CLI, source CSS, dist CSS and config file paths.
  It validates the settings.
- **`tailwind` management command** (`tailwind.py`):
  - the argument vectors of `build`, `watch`, `runserver` and `runserver_plus`;
  - the `.html`/`.txt` template walk;
  - the two "create if absent" guards, which download the CLI and write the default
    config;
  - the order of checks in `init`.
- **`list_templates` management command** (`list_templates.py`): the same template
  walk, plus its accumulation over app and project template directories.

Modules, in dependency order:

- `Wrappers`: `Option`, `Result` and `Outcome`.
- `Builtins`: the Python string and path operations used: `startswith`, `endswith`,
  ASCII lower-casing, `posixpath.join`, `expanduser` and `str()` of a list.
- `FileSystems`: a filesystem as a value. It holds the directories, the file
  contents and the executable files, with `mkdir -p`, write and `chmod +x`.
- `Conf`: the settings snapshot, the defaults of `conf.py` and the host facts.
- `Utils`: `utils.py`.
- `Templates`: the shared template walk.
- `ListTemplates`: `list_templates.py`.
- `Tailwind`: `tailwind.py`. Its `TailwindCommand` class holds `self.config`, the
  filesystem it changes and the lines it prints.

The environment is passed in as parameters:

- The `Host` value stands for `platform.system()`, `platform.machine()`, `$HOME`,
  `sys.executable`, and whether `django_extensions` and `werkzeug` can be found.
- A `Tree` value gives the output of `os.walk` for each root, and a sequence of
  paths stands for `get_app_template_dirs`.
- The downloaded executable's bytes are a `binary` string.
- How the external compiler ends is a `RunOutcome`: an exit status or an interrupt.

Wherever `tailwind.py` calls `self.config.get_full_*()`, the model uses the
`utils.py` function of the same name over the settings snapshot.

## Model

Source paths below are abbreviated as follows.

- `utils.py` is `src/django_tailwind_cli/utils.py`.
- `tailwind.py` is `src/django_tailwind_cli/management/commands/tailwind.py`.
- `list_templates.py` is `src/django_tailwind_cli/management/commands/list_templates.py`.

| member | source | states |
|---|---|---|
| Utils.NormaliseSystem | src/django_tailwind_cli/utils.py:17-19 | the result is lower case; it is `macos` exactly for `darwin` (and `macos`) in any case; every other name comes back lower-cased and otherwise unchanged |
| Utils.NormaliseMachine | src/django_tailwind_cli/utils.py:21-25 | the result is lower case; it is `x64` exactly for `x86_64`/`amd64`/`x64` and `arm64` exactly for `aarch64`/`arm64`; every other name comes back lower-cased and otherwise unchanged |
| Utils.PlatformNormalisationIdempotent | src/django_tailwind_cli/utils.py:15-27 | normalising an already normalised (system, machine) pair gives the same pair |
| Utils.SupportedPlatformNames | src/django_tailwind_cli/utils.py:15-27 | `Darwin`, `Linux` and `Windows` map to `macos`, `linux` and `windows`; `x86_64` and `AMD64` map to `x64`; `aarch64` and `arm64` map to `arm64` |
| Utils.SystemAndMachine | src/django_tailwind_cli/utils.py:15-27 | the pair is the normalised system and machine; both are lower case, and neither is a raw name the release scheme renames (`darwin`, `x86_64`, `amd64`, `aarch64`) |
| Utils.DownloadUrl | src/django_tailwind_cli/utils.py:30-37 | the URL is the release prefix `https://github.com/<repo>/releases/download/v<version>/` followed by `<asset>-<system>-<machine>` and `.exe` exactly on Windows, with nothing else; the version occurs verbatim at its fixed offset |
| Utils.ExecutableName | src/django_tailwind_cli/utils.py:50-52 | the name is `tailwindcss-<system>-<machine>-` followed by the version and the extension, with nothing else; the version occurs verbatim in it |
| Utils.ConfiguredCliPath | src/django_tailwind_cli/utils.py:43 | present exactly when `TAILWIND_CLI_PATH` is set and non-empty; then it is the user-expanded setting, which is the setting itself unless it starts with `~` |
| Utils.FullCliPath | src/django_tailwind_cli/utils.py:40-56 | a truthy configured path that is an executable file is returned as it is; otherwise the result is the executable name joined to `BASE_DIR` when the setting is unset or empty, and to the user-expanded configured path otherwise; that result ends in the executable name and contains the version |
| Utils.CliPathBelowConfigured | src/django_tailwind_cli/utils.py:53-56 | when the configured path is not an executable file, the resolved path is strictly longer than it, so it is never that path |
| Utils.CliPathDependsOnlyOnConfiguredFile | src/django_tailwind_cli/utils.py:43-47 | two filesystems on which the configured path is equally (not) an executable file give the same CLI path |
| Utils.DefaultCliPathUnderHome | src/django_tailwind_cli/utils.py:30-56 | under the `conf.py` defaults, unless `~/.local/bin/` is itself an executable file, the CLI path is `$HOME` (without trailing slashes) followed by `/.local/bin/` and the executable name, and contains `3.4.11`; the download URL contains `3.4.11` |
| Utils.ConfiguredDirectoryCliPath | src/django_tailwind_cli/utils.py:53-56 | with `TAILWIND_CLI_PATH = "/opt/bin"` and no executable file there, the CLI path is `/opt/bin/` followed by the executable name |
| Utils.FullSrcCssPath | src/django_tailwind_cli/utils.py:59-64 | fails, with its message, exactly when `SRC_CSS` is `None`; otherwise it is `BASE_DIR / SRC_CSS` and ends in `SRC_CSS` |
| Utils.FullDistCssPath | src/django_tailwind_cli/utils.py:67-73 | fails, with its message, exactly when `STATICFILES_DIRS` is `None` or empty; otherwise it is `STATICFILES_DIRS[0] / DIST_CSS` and ends in `DIST_CSS` |
| Utils.FullConfigFilePath | src/django_tailwind_cli/utils.py:76-78 | never fails; it is `BASE_DIR / CONFIG_FILE`, so it ends in `CONFIG_FILE` and, for a relative one, lies under `BASE_DIR` |
| Utils.ValidateSettings | src/django_tailwind_cli/utils.py:81-85 | fails exactly when the dist path cannot be resolved, with the same message, so a passing validation means the dist path resolves |
| Builtins.Join | src/django_tailwind_cli/utils.py:54-56 | the joined path ends in the name; an absolute name replaces the directory; a relative one is appended to an empty directory or one ending in `/` as it is, and after a single inserted `/` otherwise |
| Builtins.TrimTrailingSlashes | src/django_tailwind_cli/utils.py:43 | the result is a prefix of the directory that does not end in `/`, and everything removed is `/` |
| Builtins.ExpandUser | src/django_tailwind_cli/utils.py:43 | a path not starting with `~` is unchanged; `~` and `~/...` have the home directory, without trailing slashes, put in place of the `~`; a bare `~` whose home is only slashes becomes `/`; `~user` is unchanged |
| Builtins.LowerChar | src/django_tailwind_cli/utils.py:17 | an upper-case ASCII letter becomes the lower-case letter at the same offset; any other character is kept |
| Builtins.Lower | src/django_tailwind_cli/utils.py:17 | same length; each character is lower-cased on its own; no upper-case letter is left, and every character that was not upper case is kept |
| Builtins.ListStr | src/django_tailwind_cli/management/commands/list_templates.py:23 | `str()` of a list begins with `[` and ends with `]` |
| Tailwind.CompilerArgv | src/django_tailwind_cli/management/commands/tailwind.py:44-56 | succeeds exactly when the settings validate, and otherwise fails with the `STATICFILES_DIRS` message; on success it is `[cli, "--output", dist, mode]`, followed by `["--input", src]` exactly when `SRC_CSS` is set |
| Tailwind.BuildCommand | src/django_tailwind_cli/management/commands/tailwind.py:44-56 | `build_cmd` built by `extend` is the compiler invocation with `--minify` |
| Tailwind.WatchCommand | src/django_tailwind_cli/management/commands/tailwind.py:66-78 | `watch_cmd` built by `extend` is the compiler invocation with `--watch` |
| Tailwind.WatchIsBuildWithWatchFlag | src/django_tailwind_cli/management/commands/tailwind.py:44-78 | the watch invocation exists exactly when the build one does, and is the build one with `--watch` in place of `--minify` |
| Tailwind.SelectedAppend | src/django_tailwind_cli/management/commands/tailwind.py:177-196 | the flags contributed by two consecutive runs of options are those of the first and then those of the second |
| Tailwind.SelectedPrefix | src/django_tailwind_cli/management/commands/tailwind.py:177-196 | the flags of the first options of a run are a prefix of the flags of the whole run |
| Tailwind.AppendSetIsConcat | src/django_tailwind_cli/management/commands/tailwind.py:177-196 | appending one flag per set option, in order, adds to the command exactly the names of the set options, in table order |
| Tailwind.FiveAppends | src/django_tailwind_cli/management/commands/tailwind.py:112-121 | five consecutive `if set: append(flag)` steps add exactly the set flags of those five, in order |
| Tailwind.SelectedAt | src/django_tailwind_cli/management/commands/tailwind.py:177-196 | a set option's flag stands in the result at the position given by the number of set options before it |
| Tailwind.RankMonotone | src/django_tailwind_cli/management/commands/tailwind.py:177-196 | a set option stands before every later option's position, which fixes the flag order |
| Tailwind.SelectedSound | src/django_tailwind_cli/management/commands/tailwind.py:177-196 | every name in the result is the flag of some set option |
| Tailwind.FlagListedIffSet | src/django_tailwind_cli/management/commands/tailwind.py:177-196 | when the flag names are distinct, a flag appears in the result if and only if its option is set |
| Tailwind.RunserverFlags | src/django_tailwind_cli/management/commands/tailwind.py:112-121 | `runserver` has five boolean options |
| Tailwind.RunserverFlagsDistinct | src/django_tailwind_cli/management/commands/tailwind.py:112-121 | no two of `--ipv6`, `--nothreading`, `--nostatic`, `--noreload` and `--skip-checks` coincide |
| Tailwind.AppendRunserverFlags | src/django_tailwind_cli/management/commands/tailwind.py:112-121 | the five `append` steps add exactly the set flags of `runserver`, in table order |
| Tailwind.RunserverArgv | src/django_tailwind_cli/management/commands/tailwind.py:110-123 | the reference `runserver` argv: it starts with `[python, "manage.py", "runserver"]` and ends with the address when that is truthy |
| Tailwind.RunserverCommand | src/django_tailwind_cli/management/commands/tailwind.py:110-123 | `debug_server_cmd` built by `append` is the `runserver` invocation |
| Tailwind.RunserverArgvShape | src/django_tailwind_cli/management/commands/tailwind.py:110-123 | the argv starts with `[python, "manage.py", "runserver"]`, then the set flags; each flag is present if and only if its option is set, at the position given by the set options before it, so a set option's flag precedes every later option's; the address comes last when it is truthy, and nothing else follows the flags |
| Tailwind.RunserverPlusFlags | src/django_tailwind_cli/management/commands/tailwind.py:177-196 | `runserver_plus` has ten boolean options, and the first five are those of `runserver` |
| Tailwind.DebuggerFlags | src/django_tailwind_cli/management/commands/tailwind.py:187-196 | `runserver_plus` adds five boolean options of its own |
| Tailwind.RunserverPlusFlagsDistinct | src/django_tailwind_cli/management/commands/tailwind.py:177-196 | the ten flag names of `runserver_plus` are pairwise distinct |
| Tailwind.AppendDebuggerFlags | src/django_tailwind_cli/management/commands/tailwind.py:187-196 | the five `append` steps add exactly the set debugger and SQL flags, in table order |
| Tailwind.RunserverPlusArgv | src/django_tailwind_cli/management/commands/tailwind.py:175-202 | the reference `runserver_plus` argv: it starts with `[python, "manage.py", "runserver_plus"]` and ends with the address when that is truthy |
| Tailwind.DependencyCheck | src/django_tailwind_cli/management/commands/tailwind.py:168-173 | as written, the check raises the missing-dependencies `CommandError` only when neither `django_extensions` nor `werkzeug` can be found |
| Tailwind.BothDependenciesCheck | src/django_tailwind_cli/management/commands/tailwind.py:168-173 | the corrected check raises when either module is missing, with the same error, and passes only where the check as written passes |
| Tailwind.ExtensionsMissingGoesUnreported | src/django_tailwind_cli/management/commands/tailwind.py:168 | a host with `werkzeug` but without `django_extensions` passes the check as written, and the corrected check rejects it |
| Tailwind.RunserverPlusCommand | src/django_tailwind_cli/management/commands/tailwind.py:168-202 | fails with the missing-dependencies `CommandError` exactly when the dependency check as written fails (both `django_extensions` and `werkzeug` missing), before any argv is built; otherwise it returns the `runserver_plus` invocation |
| Tailwind.RunserverPlusArgvShape | src/django_tailwind_cli/management/commands/tailwind.py:175-202 | the argv starts with `[python, "manage.py", "runserver_plus"]`; the `runserver` flags come first among the flags; each flag is present if and only if its option is set; a set option's flag stands at the position given by the set options before it, so it precedes every later option's; the `--cert-file=` and `--key-file=` values follow the flags; the address comes last when it is truthy, and nothing else follows |
| Tailwind.ListTemplates | src/django_tailwind_cli/management/commands/tailwind.py:86-95 | the result is the templates under every app template directory, in order, followed by those under every `DIRS` entry, each walked on its own |
| Tailwind.ProjectTemplatesListed | src/django_tailwind_cli/management/commands/tailwind.py:92-93 | every template file found under any `DIRS` entry is listed |
| Tailwind.DownloadCli | src/django_tailwind_cli/management/commands/tailwind.py:237-252 | the download guard prints nothing and changes nothing, or prints "not found", the download URL and the destination, in that order; every file other than the destination keeps its presence and contents, the directories grow at most by the destination's ancestors, and only the destination can become executable |
| Tailwind.DownloadHappensIff | src/django_tailwind_cli/management/commands/tailwind.py:237-252 | the filesystem changes, and output is written, exactly when the CLI path is absent and automatic download is on; otherwise nothing happens at all |
| Tailwind.DownloadKeepsCliPath | src/django_tailwind_cli/management/commands/tailwind.py:237-252 | after the download the CLI path resolves to the same path as before |
| Tailwind.DownloadedCliExists | src/django_tailwind_cli/management/commands/tailwind.py:240-251 | with automatic download on, the CLI path exists afterwards; a fresh download is an executable file holding the fetched bytes |
| Tailwind.DownloadIdempotent | src/django_tailwind_cli/management/commands/tailwind.py:237-252 | a second call on the resulting filesystem changes nothing and prints nothing |
| Tailwind.CreateConfig | src/django_tailwind_cli/management/commands/tailwind.py:254-260 | the config guard prints nothing and changes nothing, or prints "config not found" and then the created path; every file other than the config path keeps its presence and contents, and the directories and executable bits are unchanged |
| Tailwind.ConfigWrittenIffAbsent | src/django_tailwind_cli/management/commands/tailwind.py:254-260 | the config file exists afterwards; the scaffold is written, with output, exactly when the file was absent; an existing file keeps its contents, and then nothing happens |
| Tailwind.ConfigKeepsCliPath | src/django_tailwind_cli/management/commands/tailwind.py:254-260 | writing the config does not move the CLI path, and keeps the filesystem well formed |
| Tailwind.InitEffect | src/django_tailwind_cli/management/commands/tailwind.py:28-40 | `init` fails with `CommandError("Configuration error")` exactly when validation fails, before either guard runs; otherwise it downloads the CLI, then writes the config |
| Tailwind.InitProvidesCliAndConfig | src/django_tailwind_cli/management/commands/tailwind.py:28-40 | after a successful `init` with automatic download on, the CLI path is unchanged, the CLI and the config file both exist, and the filesystem is well formed |
| Tailwind.InitSecondRunNoop | src/django_tailwind_cli/management/commands/tailwind.py:28-40 | a second `init` on the filesystem the first left changes nothing and prints nothing |
| Tailwind.InitInstallsExecutableCli | src/django_tailwind_cli/management/commands/tailwind.py:28-40 | when the CLI is absent, `init` prints "Tailwind CSS CLI not found." first and leaves an executable CLI holding the downloaded bytes at the unchanged CLI path |
| Tailwind.InitKeepsExistingConfig | src/django_tailwind_cli/management/commands/tailwind.py:28-40 | a successful `init` overwrites no existing file; an existing config file keeps its contents byte for byte |
| Tailwind.TailwindCommand.constructor | src/django_tailwind_cli/management/commands/tailwind.py:24-25 | a command starts unconfigured, with nothing printed, on the given filesystem |
| Tailwind.TailwindCommand.Init | src/django_tailwind_cli/management/commands/tailwind.py:28-40 | sets `self.config`; on a validation failure it leaves the filesystem and output untouched and fails; otherwise the new filesystem and output are those of `InitEffect` |
| Tailwind.TailwindCommand.DownloadCliIfNotExists | src/django_tailwind_cli/management/commands/tailwind.py:237-252 | the new filesystem and the appended output are those of the download guard |
| Tailwind.TailwindCommand.CreateTailwindConfigIfNotExists | src/django_tailwind_cli/management/commands/tailwind.py:254-260 | the new filesystem and the appended output are those of the config guard |
| Tailwind.TailwindCommand.Build | src/django_tailwind_cli/management/commands/tailwind.py:43-62 | runs the `--minify` invocation; a missing executable raises `OSError`; an interrupt prints the cancel message instead of the success message; exit 0 prints the built message; any other exit raises `CalledProcessError` |
| Tailwind.TailwindCommand.Watch | src/django_tailwind_cli/management/commands/tailwind.py:65-83 | runs the `--watch` invocation; a missing executable raises `OSError`; an interrupt prints that watching stopped; exit 0 prints nothing; any other exit raises `CalledProcessError` |
| Templates.IsTemplateName | src/django_tailwind_cli/management/commands/tailwind.py:267 | the `.html`/`.txt` filter, as `str.endswith` on either suffix; its cases are stated by `Templates.TemplateNameCases` |
| Templates.TemplateNameCases | src/django_tailwind_cli/management/commands/tailwind.py:267 | `base.html`, `robots.txt` and `.html` pass; `style.css`, `base.HTML`, `html` and `notes.txt.bak` do not, so the match is exact and case-sensitive |
| Templates.DirTemplates | src/django_tailwind_cli/management/commands/tailwind.py:266-268 | specification of one directory of the walk: each template file joined to its directory, in file order; its properties are stated by `DirTemplatesComplete`, `DirTemplatesSound` and `DirTemplatesAppend` |
| Templates.WalkTemplates | src/django_tailwind_cli/management/commands/tailwind.py:265-268 | specification of a whole walk: the template paths of each directory in walk order; its properties are stated by `WalkTemplatesComplete`, `WalkTemplatesSound` and `WalkTemplatesAppend` |
| Templates.RootsTemplates | src/django_tailwind_cli/management/commands/list_templates.py:15-16 | specification of the accumulation over several roots, in root order; its properties are stated by `RootsTemplatesComplete` and `RootsTemplatesAppend` |
| Templates.ListTemplateFiles | src/django_tailwind_cli/management/commands/tailwind.py:263-269 | the nested loops over the walk collect exactly the template paths of the walk from the root |
| Templates.DirTemplatesAppend | src/django_tailwind_cli/management/commands/tailwind.py:266-268 | the templates of two runs of file names are those of the first, followed by those of the second |
| Templates.WalkTemplatesAppend | src/django_tailwind_cli/management/commands/tailwind.py:265-268 | the templates of two runs of directories are those of the first, followed by those of the second, so walk order is kept |
| Templates.DirTemplatesComplete | src/django_tailwind_cli/management/commands/tailwind.py:266-268 | every `.html`/`.txt` file of a directory is listed as `join(dirpath, filename)` |
| Templates.DirTemplatesSound | src/django_tailwind_cli/management/commands/tailwind.py:266-268 | every listed path of a directory is `join(dirpath, f)` for one of its `.html`/`.txt` files |
| Templates.WalkTemplatesComplete | src/django_tailwind_cli/management/commands/list_templates.py:23-26 | every `.html`/`.txt` file anywhere in the walk is listed |
| Templates.WalkTemplatesSound | src/django_tailwind_cli/management/commands/list_templates.py:23-26 | every listed path is `join(dirpath, f)` for a `.html`/`.txt` file `f` of some walked directory |
| Templates.ListedPathsAreTemplates | src/django_tailwind_cli/management/commands/list_templates.py:25 | every listed path itself ends in `.html` or `.txt` |
| Templates.RootsTemplatesAppend | src/django_tailwind_cli/management/commands/list_templates.py:15-16 | accumulating over two runs of roots gives the first run's templates, then the second's |
| Templates.RootsTemplatesComplete | src/django_tailwind_cli/management/commands/list_templates.py:15-16 | every template file under any of the roots is listed |
| ListTemplates.HandleTemplates | src/django_tailwind_cli/management/commands/list_templates.py:14-17 | specification of `handle()`: the app templates, then one walk from `str(DIRS)`; stated by `AppTemplatesFirst`, `ProjectDirsNeverWalked` and `ProjectTemplateMissed` |
| ListTemplates.Handle | src/django_tailwind_cli/management/commands/list_templates.py:12-19 | the accumulation with `+=` produces the app directories' templates in order, then those of one walk from `str(DIRS)` |
| ListTemplates.AppTemplatesFirst | src/django_tailwind_cli/management/commands/list_templates.py:14-16 | the app templates form a prefix of the output, and every template file under any app directory is listed |
| ListTemplates.ProjectDirsNeverWalked | src/django_tailwind_cli/management/commands/list_templates.py:17 | when no walkable root starts with `[`, the project `DIRS` contribute nothing, since `str(DIRS)` always starts with `[` |
| ListTemplates.ProjectTemplateMissed | src/django_tailwind_cli/management/commands/list_templates.py:17 | with `DIRS = ["/srv/templates"]` holding `base.html`, `handle()` lists nothing, while walking each entry lists the file |
| FileSystems.FileSystem.MakeParents | src/django_tailwind_cli/management/commands/tailwind.py:244 | the directories afterwards are exactly those before plus every ancestor of the path; the files and their modes are unchanged |
| FileSystems.FileSystem.Write | src/django_tailwind_cli/management/commands/tailwind.py:246-249 | the path becomes a file holding the content; every other file keeps its status and contents; the directories and modes are unchanged |
| FileSystems.FileSystem.MakeExecutable | src/django_tailwind_cli/management/commands/tailwind.py:251 | the file becomes executable; whether any other path is executable is unchanged; directories and contents are unchanged |
| Conf.ProjectDefaults | src/django_tailwind_cli/conf.py:8-15 | a project that overrides nothing gets each `conf.py` default: version `3.4.11`, path `~/.local/bin/`, automatic download on, no source CSS, `css/tailwind.css`, `tailwind.config.js`, `tailwindlabs/tailwindcss`, `tailwindcss`; it keeps its own `BASE_DIR`, `STATICFILES_DIRS` and `TEMPLATES` `DIRS` |

## Left out

- The HTTPS download in `_download_cli_if_not_exists` (`urllib`, `ssl`, `certifi`,
  streaming). The fetched bytes are the `binary` parameter. A failed download and
  failed `mkdir` or write calls are not modelled.
- `chmod(0o755)` sets exact mode bits. The model records only that the file became
  executable.
- `subprocess.run`. The compiler run is reduced to its argv and a `RunOutcome`
  parameter, and `cwd=BASE_DIR` is not modelled. An argv whose first entry is not an
  executable file makes the run fail with `OSError`.
- `_runserver` (tailwind.py:206-235). It is a two-process `multiprocessing` fan-out
  that terminates both processes on an interrupt. Its point is concurrency, so
  `runserver` and `runserver_plus` are modelled up to the argv they hand over.
- Builtins.Lower: lowers only ASCII `A`-`Z`. Python's `str.lower()` also folds
  non-ASCII letters.
- Builtins.ExpandUser: `~user` is returned unchanged, because looking up another
  user's home directory is outside the model. pathlib's `expanduser` (utils.py:43)
  expands a known user's home and raises `RuntimeError` for an unknown one; neither is
  modelled.
- Builtins.Join: pathlib's normalisation is not modelled (collapsing `//`, dropping
  `.` and trailing separators). Both pathlib `/` and `os.path.join` are modelled as
  `posixpath.join`.
- Builtins.ListStr: Python's escaping of quote and backslash characters inside list
  items is not modelled. `DIRS` entries are modelled as strings. A project that lists
  `Path` objects gets `str()` text like `[PosixPath('...')]`. It also begins with `[`,
  which is all the `str(DIRS)` property depends on.
- Printing each `stdout.write` gives one line in `stdout`. The Django style colouring
  is not modelled. The final `"\n".join(...)` writes of both `list_templates`
  commands are left out; they return the list instead.
- `DEFAULT_TAILWIND_CONFIG` and `tailwind.config.js` are an uninterpreted constant
  string.
- Typer's option parsing and help texts. The options arrive as datatypes.
- The Django and appconf settings machinery, the `TAILWIND_CLI_` prefix handling,
  `apps.py`, and the `tailwind_css` template tag. The settings arrive as one
  `Settings` value.
- `tailwind.py` imports a `Config` class from `utils.py`, which defines only
  module-level functions. The model takes `self.config` to be the settings snapshot,
  and each `self.config.get_full_*()` call to be the `utils.py` function of the same
  name.
- The tests expect version `3.3.3`, while `conf.py` sets `3.4.11`. The model follows
  `conf.py`.
- Tailwind.TailwindCommand.Build: requires a snapshot that validates. Every
  subcommand runs after `init`, which raises otherwise.
- Tailwind.TailwindCommand.Watch: requires a snapshot that validates, for the same
  reason.
- Two complete command invocations on one filesystem are not modelled as one method.
  What the second `init` does is stated by `InitSecondRunNoop` and
  `DownloadIdempotent`.

## Findings

| source | as written | input that shows it | evidently intended | confidence | as-written member | corrected member |
|---|---|---|---|---|---|---|
| src/django_tailwind_cli/management/commands/list_templates.py:17 | `handle()` passes the whole `TEMPLATES[0]["DIRS"]` list to `list_template_files`, which walks `str(template_dir)`, the text `['/srv/templates']` | `DIRS = ["/srv/templates"]`, a directory holding `base.html`, and no app template directories: nothing is listed | walk each entry of `DIRS`, as the `tailwind list_templates` subcommand does (tailwind.py:92-93) | not executed | ListTemplates.ProjectTemplateMissed | Tailwind.ListTemplates |
| src/django_tailwind_cli/management/commands/tailwind.py:168 | `runserver_plus()` raises only when both `django_extensions` and `werkzeug` are missing | a host with `werkzeug` installed but without `django_extensions` (the case tests/test_management_commands.py:189-192 expects to fail) gets no error | raise when either module is missing, since `runserver_plus` needs both | not executed | Tailwind.ExtensionsMissingGoesUnreported | Tailwind.BothDependenciesCheck |
