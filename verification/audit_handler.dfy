/**
 * The command-line `audit` command: the two configured paths are resolved against the
 * directory of the configuration file, the file's `synthetic` section and the command-line
 * arguments are merged (the arguments win), the resolved paths are written over the merged
 * configuration, and the audit pipeline is run. The process exits with 0 once the pipeline
 * has finished and with 1 when an error escapes.
 *
 * `deepmerge` is a parameter: nothing is assumed about how it merges.
 */
module AuditHandlers {
  import opened Wrappers
  import opened JsValues
  import opened Paths
  import opened SyntheticPerformances

  /** The parsed command line: the options given, plus `configFile` and `configFilePath` that
      reading the initial configuration added. */
  type Argv = seq<(string, JsValue)>

  /** The common shape of the two resolvers: nothing without a configuration file; otherwise the
      command-line value, else the file's value, taken against the file's directory; else the
      directory itself when `fallbackToDirectory`, or `undefined`. */
  function ResolvePath(configFilePath: JsValue, fromCli: JsValue, fromFile: JsValue, paths: PathOps,
                       fallbackToDirectory: bool): (r: Result<JsValue, JsError>)
    ensures !Truthy(configFilePath) ==> r == Success(Undefined)
    ensures Truthy(configFilePath) && !configFilePath.Str? ==> r == Failure(PathNotString)
    ensures configFilePath.Str? && configFilePath.s != "" ==>
              var directory := paths.dirname(configFilePath.s);
              var chosen := if Truthy(fromCli) then fromCli else fromFile;
              if Truthy(chosen) then
                (chosen.Str? ==> r == Success(Str(paths.resolve(paths.join(directory, chosen.s)))))
                && (!chosen.Str? ==> r == Failure(PathNotString))
              else r == Success(if fallbackToDirectory then Str(directory) else Undefined)
  {
    if !Truthy(configFilePath) then Success(Undefined)
    else if !configFilePath.Str? then Failure(PathNotString)
    else
      var directory := paths.dirname(configFilePath.s);
      var chosen := if Truthy(fromCli) then fromCli else if Truthy(fromFile) then fromFile else Undefined;
      if Truthy(chosen) then
        match ResolveAgainst(paths, directory, chosen)
        case Success(p) => Success(Str(p))
        case Failure(e) => Failure(e)
      else if fallbackToDirectory then Success(Str(directory))
      else Success(Undefined)
  }

  /** A command-line value makes the file's value irrelevant. */
  lemma CliPathWins(configFilePath: JsValue, fromCli: JsValue, file1: JsValue, file2: JsValue, paths: PathOps,
                    fallbackToDirectory: bool)
    requires Truthy(fromCli)
    ensures ResolvePath(configFilePath, fromCli, file1, paths, fallbackToDirectory)
         == ResolvePath(configFilePath, fromCli, file2, paths, fallbackToDirectory)
  {
  }

  /** Without a command-line value, the file's value is resolved exactly as a command-line value
      would be. */
  lemma FilePathStandsInForCli(configFilePath: JsValue, fromCli: JsValue, fromFile: JsValue, paths: PathOps,
                               fallbackToDirectory: bool)
    requires !Truthy(fromCli)
    ensures ResolvePath(configFilePath, fromCli, fromFile, paths, fallbackToDirectory)
         == ResolvePath(configFilePath, fromFile, Undefined, paths, fallbackToDirectory)
  {
  }

  /** `resolveAuthenticationScriptPath`: `undefined` when neither source names a script. */
  function ResolveAuthenticationScriptPath(argv: Argv, paths: PathOps): Result<JsValue, JsError> {
    ResolvePath(Lookup(argv, "configFilePath"), Lookup(argv, "authenticationScriptPath"),
                GetPath(Obj(argv), ["configFile", "synthetic", "authenticationScriptPath"]), paths, false)
  }

  /** `resolveCommandExecutionContextPath`: the configuration file's directory when neither source
      names one. */
  function ResolveCommandExecutionContextPath(argv: Argv, paths: PathOps): Result<JsValue, JsError> {
    ResolvePath(Lookup(argv, "configFilePath"), Lookup(argv, "commandExecutionContextPath"),
                GetPath(Obj(argv), ["configFile", "synthetic", "commandExecutionContextPath"]), paths, true)
  }

  /** `getSyntheticPerformanceConfigFromFile`: the file's `synthetic` section when it is truthy. */
  function ConfigFromFile(argv: Argv): (r: JsValue)
    ensures Truthy(r) <==> Truthy(GetPath(Obj(argv), ["configFile", "synthetic"]))
    ensures Truthy(r) ==> r == GetPath(Obj(argv), ["configFile", "synthetic"])
    ensures !Truthy(r) ==> r == Undefined
  {
    var synthetic := GetPath(Obj(argv), ["configFile", "synthetic"]);
    if Truthy(synthetic) then synthetic else Undefined
  }

  /** The command-line arguments once `configFile` and `configFilePath` are deleted. */
  function CliArguments(argv: Argv): (r: Argv)
    ensures !HasKey(r, "configFile") && !HasKey(r, "configFilePath")
    ensures forall k :: k != "configFile" && k != "configFilePath" ==> Lookup(r, k) == Lookup(argv, k)
  {
    Without(Without(argv, "configFile"), "configFilePath")
  }

  /** The configuration handed to the pipeline, or the error a resolver threw. */
  function AssembledConfig(argv: Argv, paths: PathOps, merge: (JsValue, JsValue) -> Argv): Result<JsValue, JsError> {
    match ResolveAuthenticationScriptPath(argv, paths)
    case Failure(e) => Failure(e)
    case Success(auth) =>
      match ResolveCommandExecutionContextPath(argv, paths)
      case Failure(e) => Failure(e)
      case Success(context) =>
        var fromFile := ConfigFromFile(argv);
        var merged := merge(if Truthy(fromFile) then fromFile else Obj([]), Obj(CliArguments(argv)));
        Success(Obj(SetProp(SetProp(merged, "authenticationScriptPath", auth), "commandExecutionContextPath", context)))
  }

  /** The file's section (or `{}`) is merged with the arguments given second, and the two resolved
      paths are written over whatever the merge produced. */
  lemma AssembledConfigFields(argv: Argv, paths: PathOps, merge: (JsValue, JsValue) -> Argv)
    ensures var c := AssembledConfig(argv, paths, merge);
      && (c.Failure? <==>
            ResolveAuthenticationScriptPath(argv, paths).Failure?
            || ResolveCommandExecutionContextPath(argv, paths).Failure?)
      && (c.Success? ==>
            var fromFile := GetPath(Obj(argv), ["configFile", "synthetic"]);
            var merged := merge(if Truthy(fromFile) then fromFile else Obj([]), Obj(CliArguments(argv)));
            && Get(c.value, "authenticationScriptPath") == ResolveAuthenticationScriptPath(argv, paths).value
            && Get(c.value, "commandExecutionContextPath") == ResolveCommandExecutionContextPath(argv, paths).value
            && forall k :: k != "authenticationScriptPath" && k != "commandExecutionContextPath" ==>
                 Get(c.value, k) == Lookup(merged, k))
  {
    var c := AssembledConfig(argv, paths, merge);
    if c.Success? {
      var fromFile := ConfigFromFile(argv);
      var merged := merge(if Truthy(fromFile) then fromFile else Obj([]), Obj(CliArguments(argv)));
      var auth := ResolveAuthenticationScriptPath(argv, paths).value;
      var context := ResolveCommandExecutionContextPath(argv, paths).value;
      assert c.value == Obj(SetProp(SetProp(merged, "authenticationScriptPath", auth), "commandExecutionContextPath", context));
      PathsWrittenOver(merged, auth, context);
    }
  }

  lemma PathsWrittenOver(merged: Argv, auth: JsValue, context: JsValue)
    ensures var r := SetProp(SetProp(merged, "authenticationScriptPath", auth), "commandExecutionContextPath", context);
      && Lookup(r, "authenticationScriptPath") == auth && Lookup(r, "commandExecutionContextPath") == context
      && forall k :: k != "authenticationScriptPath" && k != "commandExecutionContextPath" ==> Lookup(r, k) == Lookup(merged, k)
  {
    var once := SetProp(merged, "authenticationScriptPath", auth);
    assert Lookup(once, "authenticationScriptPath") == auth;
  }

  /** Without a configuration file both paths end up `undefined`, even when given on the command
      line. */
  lemma NoConfigFileDropsPaths(argv: Argv, paths: PathOps, merge: (JsValue, JsValue) -> Argv)
    requires !Truthy(Lookup(argv, "configFilePath"))
    ensures var c := AssembledConfig(argv, paths, merge);
      c.Success? && Get(c.value, "authenticationScriptPath") == Undefined
      && Get(c.value, "commandExecutionContextPath") == Undefined
  {
    AssembledConfigFields(argv, paths, merge);
  }

  /** What `printError` writes when the command fails. */
  function FailureReport(e: JsError): string {
    "\n\U{1F6A8}  Audit command failed\n\n" + ErrorString(e) + "\n"
  }

  /** `auditCommandHandler`: returns the exit code and what was printed. */
  method AuditCommandHandler(argv: Argv, paths: PathOps, merge: (JsValue, JsValue) -> Argv, env: Environment)
    returns (exitCode: int, printed: string)
    ensures var c := AssembledConfig(argv, paths, merge);
      && (c.Failure? ==> exitCode == 1 && printed == FailureReport(c.error))
      && (c.Success? ==>
            var o := RunSpec(c.value, env, Fields(None, None, [], [], [], [])).0;
            && (o.Pass? ==> exitCode == 0 && printed == "")
            && (o.Fail? ==> exitCode == 1 && printed == FailureReport(o.error)))
    ensures exitCode == 1 ==> AssembledConfig(argv, paths, merge).Failure? || env.stopBrowser.Fail?
  {
    var auth := ResolveAuthenticationScriptPath(argv, paths);
    if auth.Failure? {
      return 1, FailureReport(auth.error);
    }
    var context := ResolveCommandExecutionContextPath(argv, paths);
    if context.Failure? {
      return 1, FailureReport(context.error);
    }
    var fromFile := ConfigFromFile(argv);
    var cliArgv := argv;
    cliArgv := Without(cliArgv, "configFile");
    cliArgv := Without(cliArgv, "configFilePath");
    var config := merge(if Truthy(fromFile) then fromFile else Obj([]), Obj(cliArgv));
    config := SetProp(config, "authenticationScriptPath", auth.value);
    config := SetProp(config, "commandExecutionContextPath", context.value);
    var performance := new SyntheticPerformance(Obj(config), env);
    var o := performance.Run();
    RunSwallowsStageErrors(Obj(config), env, Fields(None, None, [], [], [], []));
    if o.Fail? {
      return 1, FailureReport(o.error);
    }
    exitCode, printed := 0, "";
  }
}
