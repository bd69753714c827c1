/**
 * `validatePath`: choose the data directory from the command line or, when
 * none was given, from an environment variable, and insist that it exists.
 * The environment and the file system are inputs: `env` maps variable names
 * to values (a name absent from `env` is unset), `existing` is the set of
 * paths that exist.
 */
module FileUtils {
  import opened Wrappers

  datatype PathError =
    | NotSpecified(variable: string)
    | Missing(path: string)
  {
    /** The text of the `runtime_error` the source throws. */
    function Message(): string {
      match this
      case NotSpecified(v) => "Data directory not specified via command line or env var: " + v
      case Missing(p) => "Path doesn't exist: " + p
    }
  }

  /** The path after the fallback step: the supplied one, else the variable's value, else empty. */
  function Chosen(path: string, variable: string, env: map<string, string>): (c: string)
    ensures path != "" ==> c == path
    ensures path == "" && variable in env ==> c == env[variable]
    ensures path == "" && variable !in env ==> c == ""
  {
    if path == "" && variable in env then env[variable] else path
  }

  function ValidatePath(path: string, variable: string, env: map<string, string>, existing: set<string>)
    : (r: Result<string, PathError>)
    // a supplied path is kept and the environment is not consulted
    ensures path != "" ==> r == (if path in existing then Ok(path) else Err(Missing(path)))
    // nothing supplied: the variable's value stands in for it
    ensures path == "" && variable in env && env[variable] != "" ==>
              r == (if env[variable] in existing then Ok(env[variable]) else Err(Missing(env[variable])))
    // still empty: the error names the variable
    ensures r == Err(NotSpecified(variable)) <==> path == "" && (variable !in env || env[variable] == "")
    // success means an existing, non-empty path
    ensures r.Ok? ==> r.value != "" && r.value in existing
  {
    var chosen := Chosen(path, variable, env);
    if chosen == "" then Err(NotSpecified(variable))
    else if chosen !in existing then Err(Missing(chosen))
    else Ok(chosen)
  }

  /** Validating an already validated path changes nothing, whatever the environment. */
  lemma ValidatePathIdempotent(path: string, variable: string, env: map<string, string>,
                               env': map<string, string>, existing: set<string>)
    requires ValidatePath(path, variable, env, existing).Ok?
    ensures var p := ValidatePath(path, variable, env, existing).value;
            ValidatePath(p, variable, env', existing) == Ok(p)
  {
  }
}
