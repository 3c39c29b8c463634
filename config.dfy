/** Server configuration (hindsight-mcp, config.rs): the derived paths,
    validation order and log level. Command-line parsing is not modelled;
    a configuration is the parsed flags. */
module Config {
  import opened Wrappers
  import opened Environment

  /** The tracing levels. */
  datatype Level = Trace | Debug | Info | Warn | Error

  datatype Config = Config(
    database: Option<string>,
    workspace: Option<string>,
    verbose: bool,
    quiet: bool,
    skipInit: bool)

  /** What the process environment supplies: the file system, the
      platform's local data directory and the current directory. */
  datatype Env = Env(fs: FileSystem, dataLocalDir: Option<string>, currentDir: Option<string>)

  datatype ConfigError =
    | WorkspaceNotFound(path: string)
    | WorkspaceNotDirectory(path: string)
    | DatabaseDirectoryCreateFailed(path: string)
    | DatabaseInitFailed(message: string)

  /** The configured database, or `<data dir or ".">/hindsight/hindsight.db`. */
  function DatabasePath(c: Config, env: Env): (r: string)
    ensures c.database.Some? ==> r == c.database.value
    ensures c.database.None? ==> r == Join(Join(env.dataLocalDir.GetOr("."), "hindsight"), "hindsight.db")
  {
    match c.database
    case Some(p) => p
    case None => Join(Join(env.dataLocalDir.GetOr("."), "hindsight"), "hindsight.db")
  }

  /** The configured workspace, else the current directory if it is known. */
  function WorkspacePath(c: Config, env: Env): (r: Option<string>)
    ensures c.workspace.Some? ==> r == c.workspace
    ensures c.workspace.None? ==> r == env.currentDir
  {
    if c.workspace.Some? then c.workspace else env.currentDir
  }

  /** `validate`: a configured workspace must exist and be a directory,
      checked before anything else; then a missing database directory must
      be creatable. An empty parent (a database path of one relative
      component) is the current directory: `create_dir_all("")` succeeds
      without touching the file system. */
  function Validate(c: Config, env: Env): (r: Result<(), ConfigError>)
    ensures c.workspace.Some? && !env.fs.Exists(c.workspace.value) ==>
      r == Err(WorkspaceNotFound(c.workspace.value))
    ensures c.workspace.Some? && env.fs.Exists(c.workspace.value) && !env.fs.IsDir(c.workspace.value) ==>
      r == Err(WorkspaceNotDirectory(c.workspace.value))
    ensures r.Err? && r.error.DatabaseDirectoryCreateFailed? ==>
      (c.workspace.None? || env.fs.IsDir(c.workspace.value))
    ensures r.Ok? <==>
      (c.workspace.None? || env.fs.IsDir(c.workspace.value)) &&
      (Parent(DatabasePath(c, env)).None? || Parent(DatabasePath(c, env)).value == [] ||
       env.fs.Exists(Parent(DatabasePath(c, env)).value) || Parent(DatabasePath(c, env)).value in env.fs.creatable)
  {
    if c.workspace.Some? && !env.fs.Exists(c.workspace.value) then
      Err(WorkspaceNotFound(c.workspace.value))
    else if c.workspace.Some? && !env.fs.IsDir(c.workspace.value) then
      Err(WorkspaceNotDirectory(c.workspace.value))
    else
      match Parent(DatabasePath(c, env))
      case Some(parent) =>
        if parent != [] && !env.fs.Exists(parent) && parent !in env.fs.creatable then
          Err(DatabaseDirectoryCreateFailed(parent))
        else Ok(())
      case None => Ok(())
  }

  /** `log_level`: verbose wins over quiet. */
  function LogLevel(c: Config): (l: Level)
    ensures c.verbose ==> l == Debug
    ensures !c.verbose && c.quiet ==> l == Warn
    ensures !c.verbose && !c.quiet ==> l == Info
  {
    if c.verbose then Debug else if c.quiet then Warn else Info
  }

  /** A database named by one relative component lives in the current
      directory, which needs no creating: validation then depends on the
      workspace alone. */
  lemma ValidateBareDatabaseName(c: Config, env: Env)
    requires c.database.Some? && NormalComponent(c.database.value)
    ensures Validate(c, env).Ok? <==> c.workspace.None? || env.fs.IsDir(c.workspace.value)
  {
    FileNameOfComponent(c.database.value);
  }

  /** The three levels the flags choose are distinct, so the flags can be
      told apart from the level. */
  lemma LogLevelsDistinct(c: Config, d: Config)
    requires c.verbose != d.verbose || (!c.verbose && c.quiet != d.quiet)
    ensures LogLevel(c) != LogLevel(d)
  {
  }
}
