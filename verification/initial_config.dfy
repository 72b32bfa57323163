/**
 * How the command line finds and reads its configuration file: a `--config` path wins over the
 * default file, which is used only when it exists; a file may `extends` a parent file, named
 * relative to its own directory, which is read first and merged under it.
 *
 * The file system is a map from paths to their parsed contents, `path` and `deepmerge` are
 * parameters, and the depth of the call stack is a number: the source has no cycle check, so a
 * cyclic chain of `extends` ends only when the stack overflows.
 */
module InitialConfigs {
  import opened Wrappers
  import opened JsValues
  import opened Paths

  /** The files that exist, with their contents as `JSON.parse` returns them. */
  type Files = map<string, JsValue>

  /** What JavaScript throws when the call stack is exhausted. */
  const StackOverflow := JsError("RangeError", "Maximum call stack size exceeded")

  function NoSuchFile(path: string): JsError {
    JsError("Error", "ENOENT: no such file or directory, open '" + path + "'")
  }

  /** `getDefaultConfigFilePath`: the default file, when it exists. */
  function DefaultConfigFilePath(files: Files, paths: PathOps, defaultName: string): (r: Option<string>)
    ensures r.Some? <==> paths.resolve(defaultName) in files
    ensures r.Some? ==> r.value == paths.resolve(defaultName)
  {
    var path := paths.resolve(defaultName);
    if path in files then Some(path) else None
  }

  /** `getConfigFilePathFromCliArgument`: the `--config` value resolved, which must exist. */
  function ConfigFilePathFromCliArgument(config: JsValue, files: Files, paths: PathOps): (r: Result<Option<string>, JsError>)
    ensures !Truthy(config) ==> r == Success(None)
    ensures r.Success? && r.value.Some? ==> r.value.value in files
    ensures Truthy(config) && config.Str? ==>
              if paths.resolve(config.s) in files then r == Success(Some(paths.resolve(config.s)))
              else r == Failure(Error("Config file path " + config.s + " does not exist"))
  {
    if !Truthy(config) then Success(None)
    else if !config.Str? then Failure(PathNotString)
    else
      var path := paths.resolve(config.s);
      if path !in files then Failure(Error("Config file path " + config.s + " does not exist"))
      else Success(Some(path))
  }

  /** `getConfigFilePath`: the `--config` path over the default one. */
  function ConfigFilePath(config: JsValue, files: Files, paths: PathOps, defaultName: string): Result<Option<string>, JsError> {
    var fromDefault := DefaultConfigFilePath(files, paths, defaultName);
    match ConfigFilePathFromCliArgument(config, files, paths)
    case Failure(e) => Failure(e)
    case Success(fromCli) => Success(if fromCli.Some? && fromCli.value != "" then fromCli else fromDefault)
  }

  /** A chosen configuration file always exists; a `--config` value decides alone (a missing file
      throws even when the default exists); without one the default is taken when it exists. */
  lemma ConfigFilePathPrecedence(config: JsValue, files: Files, paths: PathOps, defaultName: string)
    ensures var r := ConfigFilePath(config, files, paths, defaultName);
      && (r.Success? && r.value.Some? ==> r.value.value in files)
      && (!Truthy(config) ==> r == Success(DefaultConfigFilePath(files, paths, defaultName)))
      && (Truthy(config) && config.Str? && paths.resolve(config.s) != "" ==>
            r == ConfigFilePathFromCliArgument(config, files, paths))
      && (r.Failure? <==> ConfigFilePathFromCliArgument(config, files, paths).Failure?)
  {
  }

  /** The file `path` names as its parent: its `extends` value taken against its directory. */
  function ParentPath(files: Files, paths: PathOps, path: string): Option<string> {
    if path in files then
      var parentName := Get(files[path], "extends");
      if Truthy(parentName) && parentName.Str? then Some(paths.resolve(paths.join(paths.dirname(path), parentName.s))) else None
    else None
  }

  /** `readConfigFile`, with `depth` calls left before the stack overflows. */
  function ReadConfigFile(path: Option<string>, files: Files, paths: PathOps, merge: (JsValue, JsValue) -> seq<(string, JsValue)>,
                          depth: nat): Result<JsValue, JsError>
    decreases depth
  {
    if path.None? || path.value == "" then Success(Undefined)
    else if depth == 0 then Failure(StackOverflow)
    else if path.value !in files then Failure(NoSuchFile(path.value))
    else
      var config := files[path.value];
      match Member(config, "extends")
      case Failure(e) => Failure(e)
      case Success(parentName) =>
        if !Truthy(parentName) then Success(config)
        else
          match ResolveAgainst(paths, paths.dirname(path.value), parentName)
          case Failure(e) => Failure(e)
          case Success(parentPath) =>
            if parentPath !in files then Failure(Error("Base config file path " + parentName.s + " does not exist"))
            else
              var child := if config.Obj? then Obj(Without(config.props, "extends")) else config;
              match ReadConfigFile(Some(parentPath), files, paths, merge, depth - 1)
              case Failure(e) => Failure(e)
              case Success(parent) => Success(if Truthy(parent) then Obj(merge(parent, child)) else child)
  }

  /** A file without `extends` is returned as parsed; with one, the parent is looked up relative to
      the file's directory, a missing parent throws, and otherwise the file without its `extends`
      key is merged over what reading the parent gave. */
  lemma ExtendsResolution(path: string, files: Files, paths: PathOps, merge: (JsValue, JsValue) -> seq<(string, JsValue)>,
                          depth: nat)
    requires path != "" && path in files && depth > 0 && files[path].Obj?
    ensures var r := ReadConfigFile(Some(path), files, paths, merge, depth);
      var config := files[path];
      var parentName := Get(config, "extends");
      && (!Truthy(parentName) ==> r == Success(config))
      && (Truthy(parentName) && parentName.Str? ==>
            var parentPath := paths.resolve(paths.join(paths.dirname(path), parentName.s));
            && (parentPath !in files ==> r == Failure(Error("Base config file path " + parentName.s + " does not exist")))
            && (parentPath in files ==>
                  var child := Without(config.props, "extends");
                  && !HasKey(child, "extends")
                  && match ReadConfigFile(Some(parentPath), files, paths, merge, depth - 1)
                     case Failure(e) => r == Failure(e)
                     case Success(parent) => r == Success(if Truthy(parent) then Obj(merge(parent, Obj(child))) else Obj(child))))
  {
  }

  /** A result that is not a stack overflow does not change with a deeper stack. */
  lemma {:induction false} DeeperStackSameResult(path: Option<string>, files: Files, paths: PathOps,
                                                  merge: (JsValue, JsValue) -> seq<(string, JsValue)>, depth: nat, deeper: nat)
    requires depth <= deeper
    requires ReadConfigFile(path, files, paths, merge, depth) != Failure(StackOverflow)
    ensures ReadConfigFile(path, files, paths, merge, deeper) == ReadConfigFile(path, files, paths, merge, depth)
    decreases depth
  {
    if path.Some? && path.value != "" && depth > 0 && path.value in files {
      var config := files[path.value];
      var parentName := Get(config, "extends");
      if Member(config, "extends").Success? && Truthy(parentName) && parentName.Str? {
        var parentPath := paths.resolve(paths.join(paths.dirname(path.value), parentName.s));
        if parentPath in files {
          DeeperStackSameResult(Some(parentPath), files, paths, merge, depth - 1, deeper - 1);
        }
      }
    }
  }

  /** No cycle check: every file of a set whose members all name a parent inside the set (a file
      that extends itself, two files that extend each other, ...) overflows the stack however deep
      it is. */
  lemma {:induction false} CyclicExtendsOverflow(cycle: set<string>, files: Files, paths: PathOps,
                                                  merge: (JsValue, JsValue) -> seq<(string, JsValue)>, path: string, depth: nat)
    requires path in cycle
    requires forall p :: p in cycle ==> p != "" && files.Keys >= {p} && ParentPath(files, paths, p).Some?
                                         && ParentPath(files, paths, p).value in cycle
    ensures ReadConfigFile(Some(path), files, paths, merge, depth) == Failure(StackOverflow)
    decreases depth
  {
    if depth > 0 {
      var parentPath := ParentPath(files, paths, path).value;
      CyclicExtendsOverflow(cycle, files, paths, merge, parentPath, depth - 1);
    }
  }

  /** What reading the initial configuration gives the command line. */
  datatype InitialConfig = InitialConfig(configFile: JsValue, configFilePath: Option<string>)

  /** `getInitialConfigFromFile` */
  function InitialConfigFromFile(config: JsValue, files: Files, paths: PathOps, defaultName: string,
                                 merge: (JsValue, JsValue) -> seq<(string, JsValue)>, depth: nat): (r: Result<InitialConfig, JsError>)
    ensures ConfigFilePath(config, files, paths, defaultName).Failure? ==> r.Failure?
    ensures r.Success? ==> var chosen := ConfigFilePath(config, files, paths, defaultName);
      chosen.Success? && r.value.configFilePath == chosen.value
    ensures r.Success? && r.value.configFilePath.Some? ==> r.value.configFilePath.value in files
    ensures r.Success? && r.value.configFilePath.None? ==> r.value.configFile == Undefined
    ensures r.Success? ==> ReadConfigFile(r.value.configFilePath, files, paths, merge, depth) == Success(r.value.configFile)
    ensures ConfigFilePath(config, files, paths, defaultName).Success? ==>
              (r.Failure? <==> ReadConfigFile(ConfigFilePath(config, files, paths, defaultName).value, files, paths, merge, depth).Failure?)
  {
    match ConfigFilePath(config, files, paths, defaultName)
    case Failure(e) => Failure(e)
    case Success(path) =>
      match ReadConfigFile(path, files, paths, merge, depth)
      case Failure(e) => Failure(e)
      case Success(file) => Success(InitialConfig(file, path))
  }
}
