/**
 * The `tailwind` management command: the argument vectors it hands to the
 * Tailwind CSS CLI and to the development servers, the template listing, and
 * the two "create if absent" guards that `init` runs before every subcommand,
 * over a filesystem value.
 */
module Tailwind {
  import opened Wrappers
  import opened Builtins
  import opened Conf
  import opened FileSystems
  import opened Utils
  import opened Templates

  // Messages the command writes or raises.
  const CLI_NOT_FOUND := "Tailwind CSS CLI not found."
  const CONFIG_NOT_FOUND := "Tailwind CSS config not found."
  const BUILD_CANCELED := "Canceled building production stylesheet."
  const WATCH_STOPPED := "Stopped watching for changes."
  const CONFIGURATION_ERROR := "Configuration error"
  const MISSING_DEPENDENCIES := "Missing dependencies. Follow the instructions found on https://django-tailwind-cli.andrich.me/installation/."

  function DownloadingMessage(url: string): string {
    "Downloading Tailwind CSS CLI from '" + url + "'"
  }

  function DownloadedMessage(dest: string): string {
    "Downloaded Tailwind CSS CLI to '" + dest + "'"
  }

  function CreatedConfigMessage(path: string): string {
    "Created Tailwind CSS config at '" + path + "'"
  }

  function BuiltMessage(dist: string): string {
    "Built production stylesheet '" + dist + "'."
  }

  /** The scaffold written to a missing config file; its JavaScript text is not modelled. */
  const DEFAULT_TAILWIND_CONFIG: string

  /** The exceptions a subcommand ends with. */
  datatype CommandFailure =
    | CommandError(message: string)        // django's CommandError
    | CalledProcessError(returncode: int)  // `subprocess.run(..., check=True)` saw a non-zero exit
    | OSError(path: string)                // the executable could not be started

  /** How the external process ended: with an exit status, or by the operator's interrupt. */
  datatype RunOutcome = Exited(returncode: int) | Interrupted

  // ---------------------------------------------------------------------------
  // build and watch

  /**
   * The CLI invocation of `build` (`modeFlag` is `--minify`) and of `watch`
   * (`--watch`), or the error resolving the dist path raises.
   */
  function CompilerArgv(c: Settings, host: Host, fs: FileSystem, modeFlag: string): (r: Result<seq<string>, string>)
    ensures r.Success? <==> ValidateSettings(c).Pass?
    ensures r.Failure? ==> r.error == STATICFILES_DIRS_EMPTY
    ensures r.Success? ==>
              && |r.value| == (if c.srcCss.Some? then 6 else 4)
              && r.value[..4] == [FullCliPath(c, host, fs), "--output", FullDistCssPath(c).value, modeFlag]
    ensures r.Success? && c.srcCss.Some? ==> r.value[4..] == ["--input", FullSrcCssPath(c).value]
  {
    var dist :- FullDistCssPath(c);
    var cmd := [FullCliPath(c, host, fs), "--output", dist, modeFlag];
    if c.srcCss.Some? then
      Success(cmd + ["--input", FullSrcCssPath(c).value])
    else
      Success(cmd)
  }

  /** `build_cmd` of `build()`, built by `extend`. */
  method BuildCommand(c: Settings, host: Host, fs: FileSystem) returns (r: Result<seq<string>, string>)
    ensures r == CompilerArgv(c, host, fs, "--minify")
  {
    var cli := FullCliPath(c, host, fs);
    var dist :- FullDistCssPath(c);
    var buildCmd := [cli, "--output", dist, "--minify"];
    if c.srcCss.Some? {
      buildCmd := buildCmd + ["--input", FullSrcCssPath(c).value];
    }
    return Success(buildCmd);
  }

  /** `watch_cmd` of `watch()`, built by `extend`. */
  method WatchCommand(c: Settings, host: Host, fs: FileSystem) returns (r: Result<seq<string>, string>)
    ensures r == CompilerArgv(c, host, fs, "--watch")
  {
    var cli := FullCliPath(c, host, fs);
    var dist :- FullDistCssPath(c);
    var watchCmd := [cli, "--output", dist, "--watch"];
    if c.srcCss.Some? {
      watchCmd := watchCmd + ["--input", FullSrcCssPath(c).value];
    }
    return Success(watchCmd);
  }

  /** The watch invocation is the build invocation with `--watch` in place of `--minify`. */
  lemma WatchIsBuildWithWatchFlag(c: Settings, host: Host, fs: FileSystem)
    ensures CompilerArgv(c, host, fs, "--watch").Success? == CompilerArgv(c, host, fs, "--minify").Success?
    ensures CompilerArgv(c, host, fs, "--minify").Success? ==>
              CompilerArgv(c, host, fs, "--watch").value == CompilerArgv(c, host, fs, "--minify").value[3 := "--watch"]
  {
  }

  // ---------------------------------------------------------------------------
  // runserver and runserver_plus

  /** A boolean command-line option and the flag it contributes when set. */
  datatype Flag = Flag(on: bool, name: string)

  /** The names of the set flags, in table order. */
  function Selected(flags: seq<Flag>): seq<string>
    decreases |flags|
  {
    if |flags| == 0 then []
    else
      var last := flags[|flags| - 1];
      Selected(flags[..|flags| - 1]) + (if last.on then [last.name] else [])
  }

  predicate DistinctNames(flags: seq<Flag>) {
    forall i, j :: 0 <= i < j < |flags| ==> flags[i].name != flags[j].name
  }

  /** The position flag `i` takes in the argument list when it is set. */
  function Rank(flags: seq<Flag>, i: int): nat
    requires 0 <= i <= |flags|
  {
    |Selected(flags[..i])|
  }

  /** The flags of a table prefix come first. */
  lemma {:induction false} SelectedPrefix(flags: seq<Flag>, i: int)
    requires 0 <= i <= |flags|
    ensures Selected(flags[..i]) <= Selected(flags)
    decreases |flags|
  {
    if i < |flags| {
      assert flags[..|flags| - 1][..i] == flags[..i];
      SelectedPrefix(flags[..|flags| - 1], i);
    } else {
      assert flags[..i] == flags;
    }
  }

  /** The flags of two tables, one after the other. */
  lemma {:induction false} SelectedAppend(a: seq<Flag>, b: seq<Flag>)
    ensures Selected(a + b) == Selected(a) + Selected(b)
    decreases |b|
  {
    if |b| > 0 {
      assert (a + b)[..|a + b| - 1] == a + b[..|b| - 1];
      SelectedAppend(a, b[..|b| - 1]);
    } else {
      assert a + b == a;
    }
  }

  /** `if option: cmd.append(flag)` */
  function AppendIf(cmd: seq<string>, f: Flag): seq<string> {
    if f.on then cmd + [f.name] else cmd
  }

  /** The table's appends, one after the other, starting from `cmd`. */
  function AppendSet(cmd: seq<string>, flags: seq<Flag>): seq<string>
    decreases |flags|
  {
    if |flags| == 0 then cmd else AppendIf(AppendSet(cmd, flags[..|flags| - 1]), flags[|flags| - 1])
  }

  /** Appending the set flags one by one extends `cmd` by exactly the selected names. */
  lemma {:induction false} AppendSetIsConcat(cmd: seq<string>, flags: seq<Flag>)
    ensures AppendSet(cmd, flags) == cmd + Selected(flags)
    decreases |flags|
  {
    if |flags| > 0 {
      var n := |flags|;
      AppendSetIsConcat(cmd, flags[..n - 1]);
      if flags[n - 1].on {
        assert (cmd + Selected(flags[..n - 1])) + [flags[n - 1].name] == cmd + (Selected(flags[..n - 1]) + [flags[n - 1].name]);
      }
    }
  }

  /** Five appends in a row extend `cmd` by the selected names of their table. */
  lemma FiveAppends(cmd: seq<string>, a: Flag, b: Flag, c: Flag, d: Flag, e: Flag)
    ensures AppendIf(AppendIf(AppendIf(AppendIf(AppendIf(cmd, a), b), c), d), e) == cmd + Selected([a, b, c, d, e])
  {
    assert [a, b, c, d, e][..4] == [a, b, c, d];
    assert [a, b, c, d][..3] == [a, b, c];
    assert [a, b, c][..2] == [a, b];
    assert [a, b][..1] == [a];
    assert [a][..0] == [];
    assert AppendSet(cmd, [a]) == AppendIf(cmd, a);
    assert AppendSet(cmd, [a, b]) == AppendIf(AppendSet(cmd, [a]), b);
    assert AppendSet(cmd, [a, b, c]) == AppendIf(AppendSet(cmd, [a, b]), c);
    assert AppendSet(cmd, [a, b, c, d]) == AppendIf(AppendSet(cmd, [a, b, c]), d);
    assert AppendSet(cmd, [a, b, c, d, e]) == AppendIf(AppendSet(cmd, [a, b, c, d]), e);
    AppendSetIsConcat(cmd, [a, b, c, d, e]);
  }

  /** A set flag appears, at its rank. */
  lemma SelectedAt(flags: seq<Flag>, i: int)
    requires 0 <= i < |flags| && flags[i].on
    ensures Rank(flags, i) < |Selected(flags)|
    ensures Selected(flags)[Rank(flags, i)] == flags[i].name
  {
    assert flags[..i + 1][..i] == flags[..i];
    assert Selected(flags[..i + 1]) == Selected(flags[..i]) + [flags[i].name];
    SelectedPrefix(flags, i + 1);
  }

  /** Set flags keep the table's order: a set flag comes before every later flag. */
  lemma RankMonotone(flags: seq<Flag>, i: int, j: int)
    requires 0 <= i < j <= |flags| && flags[i].on
    ensures Rank(flags, i) < Rank(flags, j)
  {
    var prefix := flags[..j];
    assert prefix[..i] == flags[..i];
    assert prefix[..i + 1][..i] == flags[..i];
    assert Selected(prefix[..i + 1]) == Selected(flags[..i]) + [flags[i].name];
    SelectedPrefix(prefix, i + 1);
  }

  /** Only names of set flags appear. */
  lemma {:induction false} SelectedSound(flags: seq<Flag>, x: string)
    requires x in Selected(flags)
    ensures exists i :: 0 <= i < |flags| && flags[i].on && flags[i].name == x
    decreases |flags|
  {
    var n := |flags|;
    if x in Selected(flags[..n - 1]) {
      SelectedSound(flags[..n - 1], x);
      var i :| 0 <= i < n - 1 && flags[..n - 1][i].on && flags[..n - 1][i].name == x;
      assert flags[..n - 1][i] == flags[i];
    } else {
      assert flags[n - 1].on && flags[n - 1].name == x;
    }
  }

  /** In a table of distinct names, a flag's name appears exactly when the flag is set. */
  lemma FlagListedIffSet(flags: seq<Flag>, i: int)
    requires DistinctNames(flags) && 0 <= i < |flags|
    ensures flags[i].name in Selected(flags) <==> flags[i].on
  {
    if flags[i].on {
      SelectedAt(flags, i);
    }
    if flags[i].name in Selected(flags) {
      SelectedSound(flags, flags[i].name);
    }
  }

  /** `if addrport:` for an optional string argument. */
  predicate Truthy(v: Option<string>) {
    v.Some? && v.value != ""
  }

  /** A positional argument, present when truthy. */
  function PositionalArg(v: Option<string>): seq<string> {
    if Truthy(v) then [v.value] else []
  }

  /** An `--option=value` argument, present when the value is truthy. */
  function ValueArg(option: string, v: Option<string>): seq<string> {
    if Truthy(v) then [option + v.value] else []
  }

  /** The options `runserver` accepts. */
  datatype RunserverOptions = RunserverOptions(
    addrport: Option<string>,
    useIpv6: bool,
    noThreading: bool,
    noStatic: bool,
    noReloader: bool,
    skipChecks: bool)

  /** The boolean options of `runserver` with their flags, in the order they are appended. */
  function RunserverFlags(o: RunserverOptions): (flags: seq<Flag>)
    ensures |flags| == 5
  {
    [Flag(o.useIpv6, "--ipv6"), Flag(o.noThreading, "--nothreading"), Flag(o.noStatic, "--nostatic"),
     Flag(o.noReloader, "--noreload"), Flag(o.skipChecks, "--skip-checks")]
  }

  /** No two of the five flags of `runserver` coincide. */
  lemma RunserverFlagsDistinct(o: RunserverOptions)
    ensures DistinctNames(RunserverFlags(o))
  {
    var flags := RunserverFlags(o);
    assert "--nostatic"[4] != "--noreload"[4];
    assert "--nothreading"[2] != "--skip-checks"[2];
    forall i, j | 0 <= i < j < 5 ensures flags[i].name != flags[j].name {
    }
  }

  /** The development server invocation `runserver` hands to its second process. */
  function RunserverArgv(python: string, o: RunserverOptions): (argv: seq<string>)
    ensures |argv| >= 3 && argv[..3] == [python, "manage.py", "runserver"]
    ensures Truthy(o.addrport) ==> argv[|argv| - 1] == o.addrport.value
  {
    [python, "manage.py", "runserver"] + Selected(RunserverFlags(o)) + PositionalArg(o.addrport)
  }

  /** The `append`s for the options `runserver` and `runserver_plus` share, in their order. */
  method AppendRunserverFlags(debugServerCmd: seq<string>, o: RunserverOptions) returns (cmd: seq<string>)
    ensures cmd == debugServerCmd + Selected(RunserverFlags(o))
  {
    cmd := debugServerCmd;
    ghost var prev := cmd;
    if o.useIpv6 {
      cmd := cmd + ["--ipv6"];
    }
    assert cmd == AppendIf(prev, Flag(o.useIpv6, "--ipv6"));
    prev := cmd;
    if o.noThreading {
      cmd := cmd + ["--nothreading"];
    }
    assert cmd == AppendIf(prev, Flag(o.noThreading, "--nothreading"));
    prev := cmd;
    if o.noStatic {
      cmd := cmd + ["--nostatic"];
    }
    assert cmd == AppendIf(prev, Flag(o.noStatic, "--nostatic"));
    prev := cmd;
    if o.noReloader {
      cmd := cmd + ["--noreload"];
    }
    assert cmd == AppendIf(prev, Flag(o.noReloader, "--noreload"));
    prev := cmd;
    if o.skipChecks {
      cmd := cmd + ["--skip-checks"];
    }
    assert cmd == AppendIf(prev, Flag(o.skipChecks, "--skip-checks"));
    FiveAppends(debugServerCmd, Flag(o.useIpv6, "--ipv6"), Flag(o.noThreading, "--nothreading"), Flag(o.noStatic, "--nostatic"),
                Flag(o.noReloader, "--noreload"), Flag(o.skipChecks, "--skip-checks"));
  }

  /** `debug_server_cmd` of `runserver()`, built by `append`. */
  method RunserverCommand(python: string, o: RunserverOptions) returns (debugServerCmd: seq<string>)
    ensures debugServerCmd == RunserverArgv(python, o)
  {
    debugServerCmd := [python, "manage.py", "runserver"];
    debugServerCmd := AppendRunserverFlags(debugServerCmd, o);
    if o.addrport.Some? && o.addrport.value != "" {
      debugServerCmd := debugServerCmd + [o.addrport.value];
    }
  }

  /**
   * The shape of the `runserver` invocation: the fixed prefix, each flag exactly when
   * its option is set and in table order, and the address last exactly when it is truthy.
   */
  lemma RunserverArgvShape(python: string, o: RunserverOptions, i: int, j: int)
    requires 0 <= i < 5 && 0 <= j < 5
    ensures var argv := RunserverArgv(python, o);
            var table := RunserverFlags(o);
            var flags := Selected(table);
            && argv[..3] == [python, "manage.py", "runserver"]
            && argv[3..3 + |flags|] == flags
            && (table[i].name in flags <==> table[i].on)
            && (table[i].on ==> Rank(table, i) < |flags| && argv[3 + Rank(table, i)] == table[i].name)
            && (table[i].on && i < j ==> Rank(table, i) < Rank(table, j))
            && |argv| == 3 + |flags| + (if Truthy(o.addrport) then 1 else 0)
            && (Truthy(o.addrport) ==> argv[|argv| - 1] == o.addrport.value)
  {
    var table := RunserverFlags(o);
    RunserverFlagsDistinct(o);
    FlagListedIffSet(table, i);
    if table[i].on {
      SelectedAt(table, i);
      if i < j {
        RankMonotone(table, i, j);
      }
    }
  }

  /** The options `runserver_plus` accepts. */
  datatype RunserverPlusOptions = RunserverPlusOptions(
    server: RunserverOptions,
    pdb: bool,
    ipdb: bool,
    pm: bool,
    printSql: bool,
    printSqlLocation: bool,
    certFile: Option<string>,
    keyFile: Option<string>)

  /** The boolean options of `runserver_plus`: those of `runserver`, then its own, in the order they are appended. */
  function RunserverPlusFlags(o: RunserverPlusOptions): (flags: seq<Flag>)
    ensures |flags| == 10 && flags[..5] == RunserverFlags(o.server)
  {
    RunserverFlags(o.server) + DebuggerFlags(o)
  }

  /** The boolean options only `runserver_plus` has. */
  function DebuggerFlags(o: RunserverPlusOptions): (flags: seq<Flag>)
    ensures |flags| == 5
  {
    [Flag(o.pdb, "--pdb"), Flag(o.ipdb, "--ipdb"), Flag(o.pm, "--pm"),
     Flag(o.printSql, "--print-sql"), Flag(o.printSqlLocation, "--print-sql-location")]
  }

  /** No two of the ten flags of `runserver_plus` coincide. */
  lemma RunserverPlusFlagsDistinct(o: RunserverPlusOptions)
    ensures DistinctNames(RunserverPlusFlags(o))
  {
    var flags := RunserverPlusFlags(o);
    assert "--nostatic"[4] != "--noreload"[4];
    assert "--nothreading"[2] != "--skip-checks"[2];
    assert "--ipv6"[4] != "--ipdb"[4];
    forall i, j | 0 <= i < j < 10 ensures flags[i].name != flags[j].name {
    }
  }

  /** The development server invocation `runserver_plus` hands to its second process. */
  function RunserverPlusArgv(python: string, o: RunserverPlusOptions): (argv: seq<string>)
    ensures |argv| >= 3 && argv[..3] == [python, "manage.py", "runserver_plus"]
    ensures Truthy(o.server.addrport) ==> argv[|argv| - 1] == o.server.addrport.value
  {
    [python, "manage.py", "runserver_plus"] + Selected(RunserverPlusFlags(o))
      + ValueArg("--cert-file=", o.certFile) + ValueArg("--key-file=", o.keyFile) + PositionalArg(o.server.addrport)
  }

  /** The dependency check of `runserver_plus()` as written: it raises only when neither module can be found. */
  function DependencyCheck(host: Host): (r: Outcome<CommandFailure>)
    ensures r.Fail? <==> !host.hasDjangoExtensions && !host.hasWerkzeug
    ensures r.Fail? ==> r.error == CommandError(MISSING_DEPENDENCIES)
  {
    if !host.hasDjangoExtensions && !host.hasWerkzeug then Fail(CommandError(MISSING_DEPENDENCIES)) else Pass
  }

  /** The dependency check `runserver_plus` needs: it raises when either module is missing. */
  function BothDependenciesCheck(host: Host): (r: Outcome<CommandFailure>)
    ensures r.Fail? <==> !host.hasDjangoExtensions || !host.hasWerkzeug
    ensures r.Fail? ==> r.error == CommandError(MISSING_DEPENDENCIES)
    ensures r.Pass? ==> DependencyCheck(host).Pass?
  {
    if !host.hasDjangoExtensions || !host.hasWerkzeug then Fail(CommandError(MISSING_DEPENDENCIES)) else Pass
  }

  /**
   * A host with `werkzeug` but without `django_extensions` passes the check as written,
   * so `runserver_plus` goes on to start a server it cannot run; the corrected check
   * raises the missing-dependencies error there.
   */
  lemma ExtensionsMissingGoesUnreported()
    ensures var host := Host("Linux", "x86_64", "/home/user", "/usr/bin/python3", false, true);
            && DependencyCheck(host) == Pass
            && BothDependenciesCheck(host) == Fail(CommandError(MISSING_DEPENDENCIES))
  {
  }

  /** `runserver_plus()` up to the hand-over: the dependency check first, then `debug_server_cmd` built by `append`. */
  method RunserverPlusCommand(host: Host, o: RunserverPlusOptions) returns (r: Result<seq<string>, CommandFailure>)
    ensures r.Failure? <==> DependencyCheck(host).Fail?
    ensures r.Failure? ==> r.error == CommandError(MISSING_DEPENDENCIES)
    ensures r.Success? ==> r.value == RunserverPlusArgv(host.python, o)
  {
    var check := DependencyCheck(host);
    if check.Fail? {
      return Failure(check.error);
    }
    ghost var head := [host.python, "manage.py", "runserver_plus"];
    var debugServerCmd := [host.python, "manage.py", "runserver_plus"];
    debugServerCmd := AppendRunserverFlags(debugServerCmd, o.server);
    debugServerCmd := AppendDebuggerFlags(debugServerCmd, o);
    SelectedAppend(RunserverFlags(o.server), DebuggerFlags(o));
    assert debugServerCmd == head + Selected(RunserverPlusFlags(o)) by {
      assert (head + Selected(RunserverFlags(o.server))) + Selected(DebuggerFlags(o))
          == head + (Selected(RunserverFlags(o.server)) + Selected(DebuggerFlags(o)));
    }
    if o.certFile.Some? && o.certFile.value != "" {
      debugServerCmd := debugServerCmd + ["--cert-file=" + o.certFile.value];
    }
    if o.keyFile.Some? && o.keyFile.value != "" {
      debugServerCmd := debugServerCmd + ["--key-file=" + o.keyFile.value];
    }
    if o.server.addrport.Some? && o.server.addrport.value != "" {
      debugServerCmd := debugServerCmd + [o.server.addrport.value];
    }
    return Success(debugServerCmd);
  }

  /** The `append`s for the debugger and SQL options only `runserver_plus` has. */
  method AppendDebuggerFlags(debugServerCmd: seq<string>, o: RunserverPlusOptions) returns (cmd: seq<string>)
    ensures cmd == debugServerCmd + Selected(DebuggerFlags(o))
  {
    cmd := debugServerCmd;
    ghost var prev := cmd;
    if o.pdb {
      cmd := cmd + ["--pdb"];
    }
    assert cmd == AppendIf(prev, Flag(o.pdb, "--pdb"));
    prev := cmd;
    if o.ipdb {
      cmd := cmd + ["--ipdb"];
    }
    assert cmd == AppendIf(prev, Flag(o.ipdb, "--ipdb"));
    prev := cmd;
    if o.pm {
      cmd := cmd + ["--pm"];
    }
    assert cmd == AppendIf(prev, Flag(o.pm, "--pm"));
    prev := cmd;
    if o.printSql {
      cmd := cmd + ["--print-sql"];
    }
    assert cmd == AppendIf(prev, Flag(o.printSql, "--print-sql"));
    prev := cmd;
    if o.printSqlLocation {
      cmd := cmd + ["--print-sql-location"];
    }
    assert cmd == AppendIf(prev, Flag(o.printSqlLocation, "--print-sql-location"));
    FiveAppends(debugServerCmd, Flag(o.pdb, "--pdb"), Flag(o.ipdb, "--ipdb"), Flag(o.pm, "--pm"),
                Flag(o.printSql, "--print-sql"), Flag(o.printSqlLocation, "--print-sql-location"));
  }

  /**
   * The shape of the `runserver_plus` invocation: the `runserver` flags come first, then
   * its own; each flag appears exactly when set; the certificate and key options follow
   * the flags; the address, when truthy, is last.
   */
  lemma RunserverPlusArgvShape(python: string, o: RunserverPlusOptions, i: int, j: int)
    requires 0 <= i < 10 && 0 <= j < 10
    ensures var argv := RunserverPlusArgv(python, o);
            var table := RunserverPlusFlags(o);
            var flags := Selected(table);
            var tail := ValueArg("--cert-file=", o.certFile) + ValueArg("--key-file=", o.keyFile);
            && argv[..3] == [python, "manage.py", "runserver_plus"]
            && argv[3..3 + |flags|] == flags
            && Selected(RunserverFlags(o.server)) <= flags
            && (table[i].name in flags <==> table[i].on)
            && (table[i].on ==> Rank(table, i) < |flags| && argv[3 + Rank(table, i)] == table[i].name)
            && (table[i].on && i < j ==> Rank(table, i) < Rank(table, j))
            && argv[3 + |flags|..3 + |flags| + |tail|] == tail
            && |argv| == 3 + |flags| + |tail| + (if Truthy(o.server.addrport) then 1 else 0)
            && (Truthy(o.server.addrport) ==> argv[|argv| - 1] == o.server.addrport.value)
  {
    var table := RunserverPlusFlags(o);
    RunserverPlusFlagsDistinct(o);
    FlagListedIffSet(table, i);
    SelectedPrefix(table, 5);
    if table[i].on {
      SelectedAt(table, i);
      if i < j {
        RankMonotone(table, i, j);
      }
    }
  }

  // ---------------------------------------------------------------------------
  // list_templates

  /** The `list_templates` subcommand: every app template directory, then every directory of `DIRS`, each walked on its own. */
  method ListTemplates(tree: Tree, appTemplateDirs: seq<string>, templateDirs: seq<string>) returns (templateFiles: seq<string>)
    ensures templateFiles == RootsTemplates(tree, appTemplateDirs) + RootsTemplates(tree, templateDirs)
  {
    templateFiles := [];
    for k := 0 to |appTemplateDirs|
      invariant templateFiles == RootsTemplates(tree, appTemplateDirs[..k])
    {
      var files := ListTemplateFiles(tree, appTemplateDirs[k]);
      templateFiles := templateFiles + files;
      assert appTemplateDirs[..k + 1][..k] == appTemplateDirs[..k];
    }
    assert appTemplateDirs[..|appTemplateDirs|] == appTemplateDirs;
    var projectFiles := [];
    for k := 0 to |templateDirs|
      invariant projectFiles == RootsTemplates(tree, templateDirs[..k])
    {
      var files := ListTemplateFiles(tree, templateDirs[k]);
      projectFiles := projectFiles + files;
      assert templateDirs[..k + 1][..k] == templateDirs[..k];
    }
    assert templateDirs[..|templateDirs|] == templateDirs;
    templateFiles := templateFiles + projectFiles;
  }

  /** Every template file under any project template directory is listed, after all the app templates. */
  lemma ProjectTemplatesListed(tree: Tree, appTemplateDirs: seq<string>, templateDirs: seq<string>, k: int, i: int, j: int)
    requires 0 <= k < |templateDirs|
    requires var walk := WalkFrom(tree, templateDirs[k]);
             0 <= i < |walk| && 0 <= j < |walk[i].filenames| && IsTemplateName(walk[i].filenames[j])
    ensures var walk := WalkFrom(tree, templateDirs[k]);
            Join(walk[i].dirpath, walk[i].filenames[j]) in RootsTemplates(tree, appTemplateDirs) + RootsTemplates(tree, templateDirs)
  {
    RootsTemplatesComplete(tree, templateDirs, k, i, j);
  }

  // ---------------------------------------------------------------------------
  // The guards `init` runs

  lemma AppendAssoc<T>(a: seq<T>, b: seq<T>, c: seq<T>)
    ensures (a + b) + c == a + (b + c)
  {
  }

  /** A change to the filesystem together with the lines written to standard output. */
  datatype Effect = Effect(fs: FileSystem, out: seq<string>)

  /** `_download_cli_if_not_exists()`: fetch `binary` to the resolved CLI path when it is absent and automatic download is on. */
  function DownloadCli(c: Settings, host: Host, fs: FileSystem, binary: string): (e: Effect)
    ensures e.out == [] || e.out == [CLI_NOT_FOUND, DownloadingMessage(DownloadUrl(c, host)), DownloadedMessage(FullCliPath(c, host, fs))]
    ensures e.out == [] ==> e.fs == fs
    ensures forall q :: q != FullCliPath(c, host, fs) ==>
              && (q in e.fs.files <==> q in fs.files)
              && (q in fs.files ==> e.fs.files[q] == fs.files[q])
    ensures e.fs.dirs == fs.dirs || e.fs.dirs == fs.dirs + Ancestors(FullCliPath(c, host, fs))
    ensures e.fs.executable == fs.executable || e.fs.executable == fs.executable + {FullCliPath(c, host, fs)}
  {
    var dest := FullCliPath(c, host, fs);
    if !fs.Exists(dest) && c.automaticDownload then
      Effect(fs.MakeParents(dest).Write(dest, binary).MakeExecutable(dest),
             [CLI_NOT_FOUND, DownloadingMessage(DownloadUrl(c, host)), DownloadedMessage(dest)])
    else
      Effect(fs, [])
  }

  /** A download happens exactly when the CLI path is absent and automatic download is on; otherwise nothing changes and nothing is written. */
  lemma DownloadHappensIff(c: Settings, host: Host, fs: FileSystem, binary: string)
    ensures var e := DownloadCli(c, host, fs, binary);
            var downloads := !fs.Exists(FullCliPath(c, host, fs)) && c.automaticDownload;
            && (e.fs != fs <==> downloads)
            && (e.out != [] <==> downloads)
            && (!downloads ==> e == Effect(fs, []))
  {
    var dest := FullCliPath(c, host, fs);
    var e := DownloadCli(c, host, fs, binary);
    if !fs.Exists(dest) && c.automaticDownload {
      assert e.fs.Exists(dest);
    }
  }

  /** The download does not move the CLI path: the file it creates is never the configured path itself. */
  lemma DownloadKeepsCliPath(c: Settings, host: Host, fs: FileSystem, binary: string)
    ensures FullCliPath(c, host, DownloadCli(c, host, fs, binary).fs) == FullCliPath(c, host, fs)
  {
    var dest := FullCliPath(c, host, fs);
    var e := DownloadCli(c, host, fs, binary);
    if !fs.Exists(dest) && c.automaticDownload {
      var configured := ConfiguredCliPath(c, host);
      if configured.Some? {
        assert !UsesConfiguredExecutable(c, host, fs);
        CliPathBelowConfigured(c, host, fs);
        assert e.fs.IsExecutableFile(configured.value) == fs.IsExecutableFile(configured.value);
      }
      CliPathDependsOnlyOnConfiguredFile(c, host, fs, e.fs);
    }
  }

  /** With automatic download on, the CLI path exists afterwards; a fresh download is an executable file holding `binary`. */
  lemma DownloadedCliExists(c: Settings, host: Host, fs: FileSystem, binary: string)
    requires c.automaticDownload
    ensures var e := DownloadCli(c, host, fs, binary);
            var dest := FullCliPath(c, host, fs);
            && e.fs.Exists(FullCliPath(c, host, e.fs))
            && (!fs.Exists(dest) ==> e.fs.IsExecutableFile(dest) && e.fs.files[dest] == binary)
  {
    DownloadKeepsCliPath(c, host, fs, binary);
  }

  /** A second call downloads nothing and writes nothing. */
  lemma DownloadIdempotent(c: Settings, host: Host, fs: FileSystem, binary: string, binary': string)
    ensures var e := DownloadCli(c, host, fs, binary);
            DownloadCli(c, host, e.fs, binary') == Effect(e.fs, [])
  {
    DownloadKeepsCliPath(c, host, fs, binary);
  }

  /** `_create_tailwind_config_if_not_exists()`: write the scaffold when the config path is absent. */
  function CreateConfig(c: Settings, fs: FileSystem): (e: Effect)
    ensures e.out == [] || e.out == [CONFIG_NOT_FOUND, CreatedConfigMessage(FullConfigFilePath(c))]
    ensures e.out == [] ==> e.fs == fs
    ensures forall q :: q != FullConfigFilePath(c) ==>
              && (q in e.fs.files <==> q in fs.files)
              && (q in fs.files ==> e.fs.files[q] == fs.files[q])
    ensures e.fs.dirs == fs.dirs && e.fs.executable == fs.executable
  {
    var path := FullConfigFilePath(c);
    if !fs.Exists(path) then
      Effect(fs.Write(path, DEFAULT_TAILWIND_CONFIG), [CONFIG_NOT_FOUND, CreatedConfigMessage(path)])
    else
      Effect(fs, [])
  }

  /**
   * The config file exists afterwards. It is written with the scaffold exactly when it
   * was absent; an existing one is left as it was, contents included.
   */
  lemma ConfigWrittenIffAbsent(c: Settings, fs: FileSystem)
    ensures var e := CreateConfig(c, fs);
            var path := FullConfigFilePath(c);
            && e.fs.Exists(path)
            && (e.out != [] <==> !fs.Exists(path))
            && (!fs.Exists(path) ==> e.fs.IsFile(path) && e.fs.files[path] == DEFAULT_TAILWIND_CONFIG)
            && (fs.Exists(path) ==> e == Effect(fs, []))
            && (fs.IsFile(path) ==> e.fs.files[path] == fs.files[path])
  {
  }

  /** Writing the config file never makes the configured CLI path an executable file, so the CLI path stays put. */
  lemma ConfigKeepsCliPath(c: Settings, host: Host, fs: FileSystem)
    requires fs.Valid()
    ensures FullCliPath(c, host, CreateConfig(c, fs).fs) == FullCliPath(c, host, fs)
    ensures CreateConfig(c, fs).fs.Valid()
  {
    var e := CreateConfig(c, fs);
    var configured := ConfiguredCliPath(c, host);
    if configured.Some? {
      assert e.fs.IsExecutableFile(configured.value) == fs.IsExecutableFile(configured.value);
    }
    CliPathDependsOnlyOnConfiguredFile(c, host, fs, e.fs);
  }

  /** `init()`: validate the settings, raising before either guard runs; then download the CLI and write the config. */
  function InitEffect(c: Settings, host: Host, fs: FileSystem, binary: string): (r: Result<Effect, CommandFailure>)
    ensures r.Failure? <==> ValidateSettings(c).Fail?
    ensures r.Failure? ==> r.error == CommandError(CONFIGURATION_ERROR)
  {
    if ValidateSettings(c).Fail? then Failure(CommandError(CONFIGURATION_ERROR))
    else
      var download := DownloadCli(c, host, fs, binary);
      var config := CreateConfig(c, download.fs);
      Success(Effect(config.fs, download.out + config.out))
  }

  /** After a successful `init` with automatic download on, both the CLI the argument vectors name and the config file exist. */
  lemma InitProvidesCliAndConfig(c: Settings, host: Host, fs: FileSystem, binary: string)
    requires fs.Valid()
    ensures var r := InitEffect(c, host, fs, binary);
            r.Success? && c.automaticDownload ==>
              && FullCliPath(c, host, r.value.fs) == FullCliPath(c, host, fs)
              && r.value.fs.Exists(FullCliPath(c, host, r.value.fs))
              && r.value.fs.Exists(FullConfigFilePath(c))
              && r.value.fs.Valid()
  {
    if ValidateSettings(c).Pass? && c.automaticDownload {
      var download := DownloadCli(c, host, fs, binary);
      DownloadedCliExists(c, host, fs, binary);
      DownloadKeepsCliPath(c, host, fs, binary);
      ConfigKeepsCliPath(c, host, download.fs);
      ConfigWrittenIffAbsent(c, download.fs);
    }
  }

  /** A second `init` on the filesystem the first one left neither downloads, nor writes the config, nor prints anything. */
  lemma InitSecondRunNoop(c: Settings, host: Host, fs: FileSystem, binary: string, binary': string)
    requires fs.Valid()
    ensures var first := InitEffect(c, host, fs, binary);
            first.Success? ==> InitEffect(c, host, first.value.fs, binary') == Success(Effect(first.value.fs, []))
  {
    var first := InitEffect(c, host, fs, binary);
    if first.Success? {
      var download := DownloadCli(c, host, fs, binary);
      var config := CreateConfig(c, download.fs);
      DownloadKeepsCliPath(c, host, fs, binary);
      DownloadHappensIff(c, host, fs, binary);
      ConfigKeepsCliPath(c, host, download.fs);
      ConfigWrittenIffAbsent(c, download.fs);
      var dest := FullCliPath(c, host, fs);
      assert c.automaticDownload ==> download.fs.Exists(dest);
      assert FullCliPath(c, host, config.fs) == dest;
      assert c.automaticDownload ==> config.fs.Exists(dest);
      assert DownloadCli(c, host, config.fs, binary') == Effect(config.fs, []);
      ConfigWrittenIffAbsent(c, config.fs);
      assert CreateConfig(c, config.fs) == Effect(config.fs, []);
      assert first.value.fs == config.fs;
      assert DownloadCli(c, host, config.fs, binary').out + CreateConfig(c, config.fs).out == [];
    }
  }

  // ---------------------------------------------------------------------------
  // The command object

  /** One invocation of the `tailwind` command: the settings it reads, the filesystem it changes and what it prints. */
  class TailwindCommand {
    const settings: Settings
    const host: Host
    /** `self.config`, set by `init`. */
    var config: Option<Settings>
    var fs: FileSystem
    var stdout: seq<string>

    constructor (settings: Settings, host: Host, fs: FileSystem)
      ensures this.settings == settings && this.host == host && this.fs == fs
      ensures config == None && stdout == []
    {
      this.settings := settings;
      this.host := host;
      this.fs := fs;
      config := None;
      stdout := [];
    }

    /** `init()`, run before every subcommand. */
    method Init(binary: string) returns (r: Outcome<CommandFailure>)
      modifies this
      ensures config == Some(settings)
      ensures var e := InitEffect(settings, host, old(fs), binary);
              && (e.Failure? ==> r == Fail(e.error) && fs == old(fs) && stdout == old(stdout))
              && (e.Success? ==> r == Pass && fs == e.value.fs && stdout == old(stdout) + e.value.out)
    {
      config := Some(settings);
      var validation := ValidateSettings(settings);
      if validation.Fail? {
        return Fail(CommandError(CONFIGURATION_ERROR));
      }
      ghost var out0 := stdout;
      ghost var download := DownloadCli(settings, host, fs, binary);
      DownloadCliIfNotExists(binary);
      ghost var created := CreateConfig(settings, download.fs);
      CreateTailwindConfigIfNotExists();
      AppendAssoc(out0, download.out, created.out);
      r := Pass;
    }

    /** `_download_cli_if_not_exists()`: mkdir, write the fetched `binary`, chmod. */
    method DownloadCliIfNotExists(binary: string)
      requires config.Some?
      modifies this`fs, this`stdout
      ensures fs == DownloadCli(config.value, host, old(fs), binary).fs
      ensures stdout == old(stdout) + DownloadCli(config.value, host, old(fs), binary).out
    {
      var c := config.value;
      var files := fs;
      var out := stdout;
      var destFile := FullCliPath(c, host, files);
      if !files.Exists(destFile) && c.automaticDownload {
        var downloadUrl := DownloadUrl(c, host);
        out := out + [CLI_NOT_FOUND, DownloadingMessage(downloadUrl)];
        files := files.MakeParents(destFile);
        files := files.Write(destFile, binary);
        files := files.MakeExecutable(destFile);
        out := out + [DownloadedMessage(destFile)];
      }
      fs, stdout := files, out;
    }

    /** `_create_tailwind_config_if_not_exists()` */
    method CreateTailwindConfigIfNotExists()
      requires config.Some?
      modifies this`fs, this`stdout
      ensures fs == CreateConfig(config.value, old(fs)).fs
      ensures stdout == old(stdout) + CreateConfig(config.value, old(fs)).out
    {
      var files := fs;
      var out := stdout;
      var tailwindConfigFile := FullConfigFilePath(config.value);
      if !files.Exists(tailwindConfigFile) {
        out := out + [CONFIG_NOT_FOUND];
        files := files.Write(tailwindConfigFile, DEFAULT_TAILWIND_CONFIG);
        out := out + [CreatedConfigMessage(tailwindConfigFile)];
      }
      fs, stdout := files, out;
    }

    /**
     * `build()` after a successful `init`: run the CLI; report success on a zero exit,
     * the cancel message on an interrupt, and propagate any other failure.
     */
    method Build(run: RunOutcome) returns (buildCmd: seq<string>, r: Outcome<CommandFailure>)
      requires config.Some? && ValidateSettings(config.value).Pass?
      modifies this`stdout
      ensures CompilerArgv(config.value, host, fs, "--minify") == Success(buildCmd)
      ensures !fs.IsExecutableFile(buildCmd[0]) ==> r == Fail(OSError(buildCmd[0])) && stdout == old(stdout)
      ensures fs.IsExecutableFile(buildCmd[0]) && run.Interrupted? ==> r == Pass && stdout == old(stdout) + [BUILD_CANCELED]
      ensures fs.IsExecutableFile(buildCmd[0]) && run == Exited(0) ==>
                r == Pass && stdout == old(stdout) + [BuiltMessage(FullDistCssPath(config.value).value)]
      ensures fs.IsExecutableFile(buildCmd[0]) && run.Exited? && run.returncode != 0 ==>
                r == Fail(CalledProcessError(run.returncode)) && stdout == old(stdout)
    {
      var cmd := BuildCommand(config.value, host, fs);
      buildCmd := cmd.value;
      if !fs.IsExecutableFile(buildCmd[0]) {
        return buildCmd, Fail(OSError(buildCmd[0]));
      }
      match run {
        case Interrupted =>
          stdout := stdout + [BUILD_CANCELED];
          r := Pass;
        case Exited(code) =>
          if code == 0 {
            stdout := stdout + [BuiltMessage(FullDistCssPath(config.value).value)];
            r := Pass;
          } else {
            r := Fail(CalledProcessError(code));
          }
      }
    }

    /** `watch()` after a successful `init`: an interrupt reports that watching stopped; a non-zero exit propagates. */
    method Watch(run: RunOutcome) returns (watchCmd: seq<string>, r: Outcome<CommandFailure>)
      requires config.Some? && ValidateSettings(config.value).Pass?
      modifies this`stdout
      ensures CompilerArgv(config.value, host, fs, "--watch") == Success(watchCmd)
      ensures !fs.IsExecutableFile(watchCmd[0]) ==> r == Fail(OSError(watchCmd[0])) && stdout == old(stdout)
      ensures fs.IsExecutableFile(watchCmd[0]) && run.Interrupted? ==> r == Pass && stdout == old(stdout) + [WATCH_STOPPED]
      ensures fs.IsExecutableFile(watchCmd[0]) && run == Exited(0) ==> r == Pass && stdout == old(stdout)
      ensures fs.IsExecutableFile(watchCmd[0]) && run.Exited? && run.returncode != 0 ==>
                r == Fail(CalledProcessError(run.returncode)) && stdout == old(stdout)
    {
      var cmd := WatchCommand(config.value, host, fs);
      watchCmd := cmd.value;
      if !fs.IsExecutableFile(watchCmd[0]) {
        return watchCmd, Fail(OSError(watchCmd[0]));
      }
      match run {
        case Interrupted =>
          stdout := stdout + [WATCH_STOPPED];
          r := Pass;
        case Exited(code) =>
          r := if code == 0 then Pass else Fail(CalledProcessError(code));
      }
    }
  }

  /** When the CLI is absent, `init` reports that first and leaves an executable CLI at the same path. */
  lemma InitInstallsExecutableCli(c: Settings, host: Host, fs: FileSystem, binary: string)
    requires fs.Valid()
    ensures var r := InitEffect(c, host, fs, binary);
            r.Success? && c.automaticDownload && !fs.Exists(FullCliPath(c, host, fs)) ==>
              && FullCliPath(c, host, r.value.fs) == FullCliPath(c, host, fs)
              && r.value.fs.IsExecutableFile(FullCliPath(c, host, fs))
              && r.value.fs.files[FullCliPath(c, host, fs)] == binary
              && |r.value.out| > 0 && r.value.out[0] == CLI_NOT_FOUND
              && r.value.fs.Valid()
  {
    var dest := FullCliPath(c, host, fs);
    if ValidateSettings(c).Pass? && c.automaticDownload && !fs.Exists(dest) {
      var download := DownloadCli(c, host, fs, binary);
      DownloadedCliExists(c, host, fs, binary);
      InitProvidesCliAndConfig(c, host, fs, binary);
      assert download.fs.IsExecutableFile(dest);
      var created := CreateConfig(c, download.fs);
      assert created.fs.IsExecutableFile(dest);
    }
  }

  /**
   * `init` never overwrites a file that already exists: in particular an existing config
   * file keeps its contents byte for byte.
   */
  lemma InitKeepsExistingConfig(c: Settings, host: Host, fs: FileSystem, binary: string)
    ensures var r := InitEffect(c, host, fs, binary);
            var cfg := FullConfigFilePath(c);
            r.Success? ==>
              && (fs.IsFile(cfg) ==> cfg in r.value.fs.files && r.value.fs.files[cfg] == fs.files[cfg])
              && (forall q :: q in fs.files ==> q in r.value.fs.files && r.value.fs.files[q] == fs.files[q])
  {
    if ValidateSettings(c).Pass? {
      var dest := FullCliPath(c, host, fs);
      var cfg := FullConfigFilePath(c);
      var download := DownloadCli(c, host, fs, binary);
      var created := CreateConfig(c, download.fs);
      assert forall q :: q in fs.files ==> q in download.fs.files && download.fs.files[q] == fs.files[q];
      assert forall q :: q in download.fs.files ==> q in created.fs.files && created.fs.files[q] == download.fs.files[q];
    }
  }
}
