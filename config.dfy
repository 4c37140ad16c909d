/** The configuration-file choice of ViperReadConfig in pkg/utils/config.go.
    Home directory, working directory, executable directory and file
    existence are parameters; the viper read/watch side effects are reduced
    to "the file is read" or "the process exits". */
module Config {
  import opened Common
  import FileSystem

  datatype ConfigOutcome =
    | Loaded(path: string)       // viper read the file at `path`
    | NotLoaded(path: string)    // `path` does not exist; nothing was read
    | Exited                     // os.Exit(1) or log.Fatalf

  /** The environment suffix chosen at config.go:15-23. The "prod" and
      "production" test sits in the branch for the empty env, so the empty
      suffix it would select is never produced. */
  function EnvSuffix(env: string): (r: string)
    ensures |env| > 0 ==> r == "." + env
    ensures env == "" ==> r == ".local"
    ensures r != ""
  {
    if |env| > 0 then "." + env
    else if env == "prod" || env == "production" then ""
    else ".local"
  }

  /** The file ViperReadConfig settles on: the given file, or
      "<home>/.<app>.yaml" when none is given, if it exists; otherwise
      app<suffix>.yml under configs/ in the working directory, or in the
      executable's directory when the working directory is unknown. */
  function FinalPath(env: string, appName: string, configFile: string, home: FileSystem.PathResult,
                     cwd: FileSystem.PathResult, exeDir: FileSystem.PathResult, fileExists: string -> bool): string
  {
    var chosen := if configFile == "" then home.path + "/." + appName + ".yaml" else configFile;
    var dir := if cwd.err.None? then cwd.path else exeDir.path;
    if fileExists(chosen) then chosen else dir + "/configs/app" + EnvSuffix(env) + ".yml"
  }

  /** ViperReadConfig (config.go:14-86). `home` is homedir.Dir(), `cwd` is
      os.Getwd(), `exeDir` is filepath.Dir of os.Executable(), `fileExists` is
      FileExists and `readOk` says whether viper.ReadInConfig succeeds. */
  method ViperReadConfig(env: string, appName: string, configFile: string,
                         home: FileSystem.PathResult, cwd: FileSystem.PathResult,
                         exeDir: FileSystem.PathResult, fileExists: string -> bool, readOk: bool)
    returns (outcome: ConfigOutcome)
    ensures configFile == "" && home.err.Some? ==> outcome == Exited
    ensures (configFile != "" || home.err.None?) && cwd.err.Some? && exeDir.err.Some? ==> outcome == Exited
    ensures outcome.Loaded? ==> readOk && fileExists(outcome.path)
    ensures outcome.NotLoaded? ==> !fileExists(outcome.path)
    ensures var unknownDirs := (configFile == "" && home.err.Some?) || (cwd.err.Some? && exeDir.err.Some?);
      var path := FinalPath(env, appName, configFile, home, cwd, exeDir, fileExists);
      && (outcome == Exited <==> unknownDirs || (fileExists(path) && !readOk))
      && (!unknownDirs && fileExists(path) && readOk ==> outcome == Loaded(path))
      && (!unknownDirs && !fileExists(path) ==> outcome == NotLoaded(path))
  {
    var env := env;
    var configFile := configFile;
    if |env| > 0 {
      env := "." + env;
    } else {
      if env == "prod" || env == "production" {
        env := "";
      } else {
        env := ".local";
      }
    }
    if configFile == "" {
      if home.err.Some? {
        return Exited;
      }
      configFile := home.path + "/." + appName + ".yaml";
    }
    var dir := cwd.path;
    if cwd.err.Some? {
      if exeDir.err.Some? {
        return Exited;
      }
      dir := exeDir.path;
    }
    if !fileExists(configFile) {
      configFile := dir + "/configs/app" + env + ".yml";
    }
    if fileExists(configFile) {
      if !readOk {
        return Exited;
      }
      outcome := Loaded(configFile);
    } else {
      outcome := NotLoaded(configFile);
    }
  }
}
