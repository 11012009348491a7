/**
 * Where the configuration lives and what `hop configure setup` writes there
 * (hop/configure.py). The environment is a snapshot map; the file system is the
 * snapshot of the Auth module.
 */
module Configure {
  import opened Basics
  import opened Values
  import opened Auth

  /** Python's posixpath.join for two components. */
  function PathJoin(a: string, b: string): string
  {
    if |b| > 0 && b[0] == '/' then b
    else if |a| == 0 || a[|a| - 1] == '/' then a + b
    else a + "/" + b
  }

  predicate EndsWith(s: string, suffix: string)
  {
    |suffix| <= |s| && s[|s| - |suffix|..] == suffix
  }

  /** Joining a relative component always ends with that component. */
  lemma PathJoinEndsWith(a: string, b: string)
    requires |b| > 0 && b[0] != '/'
    ensures EndsWith(PathJoin(a, b), b)
  {
    var r := PathJoin(a, b);
    assert r[|r| - |b|..] == b;
  }

  /** `os.path.join("hop", "config.toml")`. */
  const AuthFilePath: string := "hop/config.toml"

  /** `os.getenv("HOME")` is None: joining None raises TypeError. */
  datatype ConfigPathError = HomeUnset

  /** hop/configure.py get_config_path. */
  function GetConfigPath(env: map<string, string>): (r: Result<string, ConfigPathError>)
    ensures r.Ok? <==> "XDG_CONFIG_HOME" in env || "HOME" in env
    ensures r.Ok? ==> EndsWith(r.value, AuthFilePath)
  {
    assert AuthFilePath[0] == 'h';
    if "XDG_CONFIG_HOME" in env then
      PathJoinEndsWith(env["XDG_CONFIG_HOME"], AuthFilePath);
      Ok(PathJoin(env["XDG_CONFIG_HOME"], AuthFilePath))
    else if "HOME" in env then
      PathJoinEndsWith(PathJoin(env["HOME"], ".config"), AuthFilePath);
      Ok(PathJoin(PathJoin(env["HOME"], ".config"), AuthFilePath))
    else Err(HomeUnset)
  }

  /** With XDG_CONFIG_HOME set the file is `hop/config.toml` under it, with no `.config` in between. */
  lemma XdgConfigPath(env: map<string, string>)
    requires "XDG_CONFIG_HOME" in env
    requires var d := env["XDG_CONFIG_HOME"]; |d| > 0 && d[|d| - 1] != '/'
    ensures GetConfigPath(env) == Ok(env["XDG_CONFIG_HOME"] + "/hop/config.toml")
  {
    assert AuthFilePath[0] == 'h';
    assert env["XDG_CONFIG_HOME"] + "/" + AuthFilePath == env["XDG_CONFIG_HOME"] + "/hop/config.toml";
  }

  /** Without XDG_CONFIG_HOME the file is `.config/hop/config.toml` under HOME. */
  lemma HomeConfigPath(env: map<string, string>)
    requires "XDG_CONFIG_HOME" !in env && "HOME" in env
    requires var h := env["HOME"]; |h| > 0 && h[|h| - 1] != '/'
    ensures GetConfigPath(env) == Ok(env["HOME"] + "/.config/hop/config.toml")
  {
    var h := env["HOME"];
    var dotConfig := h + "/" + ".config";
    assert ".config"[0] == '.';
    assert PathJoin(h, ".config") == dotConfig;
    assert dotConfig[|dotConfig| - 1] == 'g';
    assert AuthFilePath[0] == 'h';
    assert dotConfig + "/" + AuthFilePath == h + "/.config/hop/config.toml";
  }

  /** When XDG_CONFIG_HOME is set, HOME, set to anything or unset, makes no difference. */
  lemma XdgShadowsHome(env: map<string, string>, home: string)
    requires "XDG_CONFIG_HOME" in env
    ensures GetConfigPath(env["HOME" := home]) == GetConfigPath(env)
    ensures GetConfigPath(env - {"HOME"}) == GetConfigPath(env)
  {
    assert env["HOME" := home]["XDG_CONFIG_HOME"] == env["XDG_CONFIG_HOME"];
    assert (env - {"HOME"})["XDG_CONFIG_HOME"] == env["XDG_CONFIG_HOME"];
  }

  // ---------------------------------------------------------------------------
  // `setup`
  // ---------------------------------------------------------------------------

  /** The document `setup` writes: a single legacy-style `auth` table. */
  function SetupDocument(user: string, password: string): map<string, Value>
  {
    map["auth" := Table(map["username" := Str(user), "password" := Str(password)])]
  }

  /** A regular file (0o100000) with permissions 0o600. */
  const OwnerOnlyFileMode: bv32 := 0x8180

  /**
   * The `setup` branch of hop/configure.py _main, as written: an existing file
   * is kept unless `force` is given; otherwise the document is written through
   * a plain `open(..., "w")`, which keeps an existing file's mode and creates a
   * new one with 0o666 less the umask.
   */
  function SetupAsWritten(fs: FileSystem, path: string, force: bool, user: string, password: string, umask: bv32)
    : (r: FileSystem)
    ensures path in r
    ensures path in fs && !force ==> r == fs
    ensures forall q :: q != path ==> (q in r <==> q in fs) && (q in r ==> r[q] == fs[q])
    ensures path !in fs || force ==>
      && r[path].content == Parsed(SetupDocument(user, password))
      && r[path].mode == if path in fs then fs[path].mode else 0x8000 | (0x1B6 & !umask)
  {
    if path in fs && !force then fs
    else
      var mode := if path in fs then fs[path].mode else 0x8000 | (0x1B6 & !umask);
      fs[path := File(mode, Parsed(SetupDocument(user, password)))]
  }

  /** With the common umask 0o022 a freshly written configuration is refused by load_auth. */
  lemma SetupAsWrittenUnreadable(fs: FileSystem, path: string, user: string, password: string)
    requires path !in fs
    ensures LoadAuthFile(SetupAsWritten(fs, path, false, user, password, 0x12), path)
         == Err(UnsafePermissions(path, 0x81A4))
  {
    var r := SetupAsWritten(fs, path, false, user, password, 0x12);
    assert r[path].mode == 0x81A4;
  }

  /** The `setup` branch with the file's mode set to 0o600 whenever it is written. */
  function Setup(fs: FileSystem, path: string, force: bool, user: string, password: string): (r: FileSystem)
    ensures path in r
    ensures path in fs && !force ==> r == fs
    ensures forall q :: q != path ==> (q in r <==> q in fs) && (q in r ==> r[q] == fs[q])
  {
    if path in fs && !force then fs
    else fs[path := File(OwnerOnlyFileMode, Parsed(SetupDocument(user, password)))]
  }

  /**
   * What `setup` writes reads back as exactly one credential: the given
   * username and password, no hostname, SSL on and SCRAM_SHA_512.
   */
  lemma SetupRoundTrip(fs: FileSystem, path: string, force: bool, user: string, password: string)
    requires path !in fs || force
    ensures LoadAuthFile(Setup(fs, path, force, user, password), path)
         == Ok([Credential(user, Str(password), "", true, ScramSha512, None)])
  {
    var doc := SetupDocument(user, password);
    var entry := map["username" := Str(user), "password" := Str(password)];
    assert doc["auth"] == Table(entry);
    EntryDefaults(user, Str(password));
    var c := Credential(user, Str(password), "", true, ScramSha512, None);
    assert InterpretEntry(Table(entry)) == Ok(c);
    assert [Table(entry)][1..] == [];
    assert InterpretEntries([]) == Ok([]);
    assert [c] + [] == [c];
    assert InterpretEntries([Table(entry)]) == Ok([c]);
  }
}
