/** Per-user video paths (apps/api/src/user/userDirectory.js). In multi-user
    mode (`MULTI_USER_ENABLED` exactly "true") each user has a directory
    under the base video path, holding Movies and Series; otherwise every
    user shares the base path. Directories live in an abstract file system:
    the set of existing directories, and the set of directories whose
    creation fails. */
module UserDirectory {
  import opened Common

  const DefaultVideoPath: string := "/mnt-host"

  predicate MultiUserEnabled(env: Env) {
    EnvGet(env, "MULTI_USER_ENABLED") == Some("true")
  }

  /** `process.env.VIDEO_PATH || "/mnt-host"` */
  function BaseVideoPath(env: Env): (p: string)
    ensures Truthy(EnvGet(env, "VIDEO_PATH")) ==> p == env["VIDEO_PATH"]
    ensures !Truthy(EnvGet(env, "VIDEO_PATH")) ==> p == DefaultVideoPath
    ensures p != ""
  {
    OrDefault(EnvGet(env, "VIDEO_PATH"), DefaultVideoPath)
  }

  /** `getUserVideoPath`: the shared base, or the user's own directory under
      it in multi-user mode. */
  function UserVideoPath(env: Env, username: string): (p: string)
    ensures !MultiUserEnabled(env) ==> p == BaseVideoPath(env)
    ensures MultiUserEnabled(env) ==>
      StartsWith(p, BaseVideoPath(env) + "/") && p[|BaseVideoPath(env)| + 1..] == username
  {
    if MultiUserEnabled(env) then JoinPath(BaseVideoPath(env), username) else BaseVideoPath(env)
  }

  /** Two users get distinct directories exactly in multi-user mode. */
  lemma UserPathsSeparateUsers(env: Env, u1: string, u2: string)
    requires u1 != u2
    ensures MultiUserEnabled(env) <==> UserVideoPath(env, u1) != UserVideoPath(env, u2)
  {
    if MultiUserEnabled(env) {
      var b := BaseVideoPath(env);
      assert UserVideoPath(env, u1)[|b| + 1..] == u1;
      assert UserVideoPath(env, u2)[|b| + 1..] == u2;
    }
  }

  /** `getUserMoviesPath` / `getUserSeriesPath` without the directory creation:
      the configured sub-directory name (or the default) under the user's
      video path. */
  function MediaPath(env: Env, username: string, dirVariable: string, defaultDir: string): (p: string)
    ensures StartsWith(p, UserVideoPath(env, username) + "/")
    ensures p[|UserVideoPath(env, username)| + 1..] == OrDefault(EnvGet(env, dirVariable), defaultDir)
  {
    JoinPath(UserVideoPath(env, username), OrDefault(EnvGet(env, dirVariable), defaultDir))
  }

  /** `{ moviesPath, seriesPath, userBasePath }` */
  datatype UserDirs = UserDirs(moviesPath: string, seriesPath: string, userBasePath: string)

  /** The three directories `ensureUserDirectory` creates, in order. */
  function UserDirsOf(env: Env, username: string): (d: UserDirs)
    ensures d.userBasePath == JoinPath(BaseVideoPath(env), username)
    ensures d.moviesPath == JoinPath(d.userBasePath, "Movies")
    ensures d.seriesPath == JoinPath(d.userBasePath, "Series")
  {
    var userBasePath := JoinPath(BaseVideoPath(env), username);
    UserDirs(JoinPath(userBasePath, "Movies"), JoinPath(userBasePath, "Series"), userBasePath)
  }

  /** The created directories use the literal names Movies and Series: with
      `MOVIES_DIR` set to another name, the movies path the getter reports is
      not the one `ensureUserDirectory` creates. */
  lemma CustomMoviesDirIsNotCreated(env: Env, username: string)
    requires MultiUserEnabled(env)
    requires EnvGet(env, "MOVIES_DIR") == Some("Films")
    ensures MediaPath(env, username, "MOVIES_DIR", "Movies") != UserDirsOf(env, username).moviesPath
  {
    var base := UserDirsOf(env, username).userBasePath;
    assert MediaPath(env, username, "MOVIES_DIR", "Movies")[|base| + 1..] == "Films";
    assert UserDirsOf(env, username).moviesPath[|base| + 1..] == "Movies";
  }

  /** Without `MOVIES_DIR` and `SERIES_DIR` the getters and the created
      directories agree. */
  lemma DefaultDirsAgree(env: Env, username: string)
    requires MultiUserEnabled(env)
    requires !Truthy(EnvGet(env, "MOVIES_DIR")) && !Truthy(EnvGet(env, "SERIES_DIR"))
    ensures MediaPath(env, username, "MOVIES_DIR", "Movies") == UserDirsOf(env, username).moviesPath
    ensures MediaPath(env, username, "SERIES_DIR", "Series") == UserDirsOf(env, username).seriesPath
  {
  }

  /** The directories `mkdirSync` calls reach: one call creates one directory
      (ancestors are not tracked), or throws for a path in `failing`. */
  class FileSystem {
    var dirs: set<string>
    const failing: set<string>

    constructor (dirs: set<string>, failing: set<string>)
      ensures this.dirs == dirs && this.failing == failing
    {
      this.dirs := dirs;
      this.failing := failing;
    }

    /** `if (!fs.existsSync(p)) fs.mkdirSync(p, { recursive: true })`:
        false when the creation throws. */
    method EnsureDir(p: string) returns (ok: bool)
      modifies this
      ensures ok <==> p in old(dirs) || p !in failing
      ensures dirs == if ok then old(dirs) + {p} else old(dirs)
    {
      if p in dirs {
        return true;
      }
      if p in failing {
        return false;
      }
      dirs := dirs + {p};
      ok := true;
    }
  }

  /** Whether each of `paths` exists or can be created. */
  predicate Creatable(fs: set<string>, failing: set<string>, paths: seq<string>) {
    forall i :: 0 <= i < |paths| ==> paths[i] in fs || paths[i] !in failing
  }

  function Targets(d: UserDirs): seq<string> {
    [d.userBasePath, d.moviesPath, d.seriesPath]
  }

  /** `ensureUserDirectory`: `None` when multi-user mode is off (nothing is
      created) or when one of the three creations throws (those before it
      remain); otherwise all three directories exist afterwards. */
  method EnsureUserDirectory(fs: FileSystem, env: Env, username: string) returns (r: Option<UserDirs>)
    modifies fs
    ensures !MultiUserEnabled(env) ==> r.None? && fs.dirs == old(fs.dirs)
    ensures MultiUserEnabled(env) ==>
      var d := UserDirsOf(env, username);
      && (r.Some? <==> Creatable(old(fs.dirs), fs.failing, Targets(d)))
      && (r.Some? ==> r.value == d && fs.dirs == old(fs.dirs) + {d.userBasePath, d.moviesPath, d.seriesPath})
      && (r.None? ==> old(fs.dirs) <= fs.dirs <= old(fs.dirs) + {d.userBasePath, d.moviesPath, d.seriesPath})
  {
    if !MultiUserEnabled(env) {
      return None;
    }
    var d := UserDirsOf(env, username);
    assert |d.userBasePath| < |d.moviesPath| == |d.seriesPath|;
    assert d.moviesPath != d.seriesPath by {
      assert d.moviesPath[|d.userBasePath| + 1..] == "Movies";
      assert d.seriesPath[|d.userBasePath| + 1..] == "Series";
    }
    var ok := fs.EnsureDir(d.userBasePath);
    if !ok {
      assert Targets(d)[0] == d.userBasePath;
      return None;
    }
    ok := fs.EnsureDir(d.moviesPath);
    if !ok {
      assert Targets(d)[1] == d.moviesPath;
      return None;
    }
    ok := fs.EnsureDir(d.seriesPath);
    if !ok {
      assert Targets(d)[2] == d.seriesPath;
      return None;
    }
    r := Some(d);
  }

  /** `getUserMoviesPath` (`MOVIES_DIR`, "Movies") and `getUserSeriesPath`
      (`SERIES_DIR`, "Series"): in multi-user mode the user's directories
      are ensured first, and whatever that gives, the path is `MediaPath`. */
  method GetUserMediaPath(fs: FileSystem, env: Env, username: string, dirVariable: string, defaultDir: string)
    returns (p: string)
    modifies fs
    ensures p == MediaPath(env, username, dirVariable, defaultDir)
    ensures !MultiUserEnabled(env) ==> fs.dirs == old(fs.dirs)
    ensures MultiUserEnabled(env) ==>
      var d := UserDirsOf(env, username);
      old(fs.dirs) <= fs.dirs <= old(fs.dirs) + {d.userBasePath, d.moviesPath, d.seriesPath}
  {
    if MultiUserEnabled(env) {
      var _ := EnsureUserDirectory(fs, env, username);
    }
    var basePath := UserVideoPath(env, username);
    p := JoinPath(basePath, OrDefault(EnvGet(env, dirVariable), defaultDir));
  }

  method GetUserMoviesPath(fs: FileSystem, env: Env, username: string) returns (p: string)
    modifies fs
    ensures p == MediaPath(env, username, "MOVIES_DIR", "Movies")
    ensures !MultiUserEnabled(env) ==> fs.dirs == old(fs.dirs)
  {
    p := GetUserMediaPath(fs, env, username, "MOVIES_DIR", "Movies");
  }

  method GetUserSeriesPath(fs: FileSystem, env: Env, username: string) returns (p: string)
    modifies fs
    ensures p == MediaPath(env, username, "SERIES_DIR", "Series")
    ensures !MultiUserEnabled(env) ==> fs.dirs == old(fs.dirs)
  {
    p := GetUserMediaPath(fs, env, username, "SERIES_DIR", "Series");
  }
}
