/** Node's `path` functions, as the command-line package uses them. Their results depend on
    the platform and the current directory, so they are parameters of the model; only the
    type check every one of them makes on its arguments is modelled. */
module Paths {
  import opened Wrappers
  import opened JsValues

  /** `path.dirname`, `path.join` and `path.resolve`. */
  datatype PathOps = PathOps(
    dirname: string -> string,
    join: (string, string) -> string,
    resolve: string -> string)

  /** What Node's `path` functions throw for an argument that is not a string. */
  const PathNotString := JsError("TypeError", "The \"path\" argument must be of type string")

  /** `path.resolve(path.join(directory, relative))`: `relative` taken against `directory`. */
  function ResolveAgainst(paths: PathOps, directory: string, relative: JsValue): (r: Result<string, JsError>)
    ensures r.Failure? <==> !relative.Str?
    ensures r.Failure? ==> r.error == PathNotString
    ensures r.Success? ==> r.value == paths.resolve(paths.join(directory, relative.s))
  {
    if relative.Str? then Success(paths.resolve(paths.join(directory, relative.s))) else Failure(PathNotString)
  }
}
