/**
 * The inventory service's DataStore: memoising loaders over a data directory.
 *
 *   <dataDir>/enabled-app-list.yaml   which users may see which application
 *   <dataDir>/<app>/<env>.yaml        one application environment
 *   <dataDir>/<app>/                  its directory lists the environments
 *
 * The disk is a value (`Disk`) handed to every call, so that it may change
 * between calls; YAML decoding is read off the file's content.  `Cache` is
 * the store's mutable state as a value, the `...Step` functions say what one
 * call returns and leaves behind, and the `DataStore` class performs them in
 * place.  Paths are component lists: `filepath.Join`'s cleaning is not modelled.
 */
module DataStore {
  import opened Common

  type Path = seq<string>

  datatype EnabledAppEntry = EnabledAppEntry(users: seq<string>)

  type EnabledApps = map<string, EnabledAppEntry>

  datatype CommonConfig = CommonConfig(sshPort: int, sshKeyPath: string, startScript: string,
                                       stopScript: string, healthCheckScript: string)

  datatype HostEntry = HostEntry(hostname: string, ipAddress: string, username: string, sshPort: Option<int>)

  datatype AppEnvData = AppEnvData(common: CommonConfig, hosts: seq<HostEntry>)

  /** What a file decodes to: one of the two documents, or YAML that fails to decode. */
  datatype FileContent = EnabledAppsDoc(apps: EnabledApps) | AppEnvDoc(data: AppEnvData) | Malformed(reason: string)

  datatype DirEntry = DirEntry(name: string, isDir: bool)

  /** The disk: the readable files and directories, and the paths whose
      reading fails with some error other than "does not exist". */
  datatype Disk = Disk(files: map<Path, FileContent>, dirs: map<Path, seq<DirEntry>>, unreadable: map<Path, string>)

  datatype Error =
    | NotExist(path: Path)
    | IsADirectory(path: Path)
    | NotADirectory(path: Path)
    | IoFailure(path: Path, reason: string)
    | ParseFailure(path: Path, reason: string)
    | Message(text: string)

  /** os.IsNotExist. */
  predicate IsNotExist(e: Error) {
    e.NotExist?
  }

  /** os.ReadFile: a directory at the path fails with EISDIR and nothing at
      the path fails with "does not exist". */
  function ReadFile(disk: Disk, p: Path): (r: Result<FileContent, Error>)
    ensures r.Ok? <==> p !in disk.unreadable && p !in disk.dirs && p in disk.files
    ensures r.Ok? ==> r.value == disk.files[p]
    ensures r.Err? ==> (IsNotExist(r.error) <==> p !in disk.unreadable && p !in disk.dirs && p !in disk.files)
    ensures p !in disk.unreadable && p in disk.dirs ==> r == Err(IsADirectory(p))
  {
    if p in disk.unreadable then Err(IoFailure(p, disk.unreadable[p]))
    else if p in disk.dirs then Err(IsADirectory(p))
    else if p in disk.files then Ok(disk.files[p])
    else Err(NotExist(p))
  }

  /** os.ReadDir: a regular file at the path fails with ENOTDIR and nothing
      at the path fails with "does not exist". */
  function ReadDir(disk: Disk, p: Path): (r: Result<seq<DirEntry>, Error>)
    ensures r.Ok? <==> p !in disk.unreadable && p in disk.dirs
    ensures r.Ok? ==> r.value == disk.dirs[p]
    ensures r.Err? ==> (IsNotExist(r.error) <==> p !in disk.unreadable && p !in disk.dirs && p !in disk.files)
    ensures p !in disk.unreadable && p !in disk.dirs && p in disk.files ==> r == Err(NotADirectory(p))
  {
    if p in disk.unreadable then Err(IoFailure(p, disk.unreadable[p]))
    else if p in disk.dirs then Ok(disk.dirs[p])
    else if p in disk.files then Err(NotADirectory(p))
    else Err(NotExist(p))
  }

  const EnabledAppList: string := "enabled-app-list.yaml"

  /** Reading and decoding enabled-app-list.yaml. */
  function EnabledAppsOnDisk(disk: Disk, dataDir: string): (r: Result<EnabledApps, Error>)
    ensures r.Ok? <==> ReadFile(disk, [dataDir, EnabledAppList]).Ok? && ReadFile(disk, [dataDir, EnabledAppList]).value.EnabledAppsDoc?
  {
    var p := [dataDir, EnabledAppList];
    match ReadFile(disk, p)
    case Err(e) => Err(e)
    case Ok(EnabledAppsDoc(apps)) => Ok(apps)
    case Ok(_) => Err(ParseFailure(p, "not an enabled-app list"))
  }

  /** Reading and decoding `<dataDir>/<app>/<env>.yaml`. */
  function AppEnvOnDisk(disk: Disk, dataDir: string, app: string, env: string): (r: Result<AppEnvData, Error>)
    ensures r.Ok? <==> ReadFile(disk, [dataDir, app, env + ".yaml"]).Ok? && ReadFile(disk, [dataDir, app, env + ".yaml"]).value.AppEnvDoc?
  {
    var p := [dataDir, app, env + ".yaml"];
    match ReadFile(disk, p)
    case Err(e) => Err(e)
    case Ok(AppEnvDoc(data)) => Ok(data)
    case Ok(_) => Err(ParseFailure(p, "not an application environment"))
  }

  // ---------------------------------------------------------------------------
  // Environment names from directory entries
  // ---------------------------------------------------------------------------

  /** filepath.Ext: the suffix from the last '.' of the last path element, or "". */
  function Ext(name: string): (e: string)
    ensures HasSuffix(name, e)
    ensures e == "" || e[0] == '.'
    ensures forall k :: 0 < k < |e| ==> e[k] != '.' && e[k] != '/'
  {
    if |name| == 0 then ""
    else
      var last := name[|name| - 1];
      if last == '/' then ""
      else if last == '.' then "."
      else
        var e := Ext(name[..|name| - 1]);
        if e == "" then "" else e + [last]
  }

  /** A name ending in a dot-suffix without further dots or separators has
      exactly that suffix as its extension. */
  lemma {:induction false} ExtOfSuffix(name: string, x: string)
    requires |x| > 0 && x[0] == '.'
    requires forall k :: 0 < k < |x| ==> x[k] != '.' && x[k] != '/'
    requires HasSuffix(name, x)
    ensures Ext(name) == x
    decreases |x|
  {
    if |x| > 1 {
      var prefix := name[..|name| - 1];
      var y := x[..|x| - 1];
      assert HasSuffix(prefix, y) by {
        assert prefix[|prefix| - |y|..] == name[|name| - |x|..][..|y|];
      }
      ExtOfSuffix(prefix, y);
      assert x == y + [name[|name| - 1]];
    }
  }

  predicate IsEnvFile(e: DirEntry) {
    !e.isDir && (HasSuffix(e.name, ".yaml") || HasSuffix(e.name, ".yml"))
  }

  /** The environment name an entry contributes: its name without the last
      extension, when it is a YAML file, else nothing. */
  function EnvName(e: DirEntry): (r: seq<string>)
    ensures |r| <= 1
    ensures |r| == 1 <==> IsEnvFile(e)
  {
    if IsEnvFile(e) then [TrimSuffix(e.name, Ext(e.name))] else []
  }

  /** The extension stripped is exactly the ".yaml" or ".yml" the name ends in. */
  lemma EnvNameStripsExtension(e: DirEntry)
    requires IsEnvFile(e)
    ensures HasSuffix(e.name, ".yaml") ==> EnvName(e)[0] + ".yaml" == e.name
    ensures !HasSuffix(e.name, ".yaml") ==> EnvName(e)[0] + ".yml" == e.name
  {
    if HasSuffix(e.name, ".yaml") {
      ExtOfSuffix(e.name, ".yaml");
    } else {
      ExtOfSuffix(e.name, ".yml");
    }
  }

  /** The environment names of a directory listing, in directory order. */
  function EnvNames(entries: seq<DirEntry>): (r: seq<string>)
    ensures |r| <= |entries|
  {
    if |entries| == 0 then [] else EnvNames(entries[..|entries| - 1]) + EnvName(entries[|entries| - 1])
  }

  lemma EnvNamesSnoc(es: seq<DirEntry>, k: nat)
    requires k < |es|
    ensures EnvNames(es[..k + 1]) == EnvNames(es[..k]) + EnvName(es[k])
  {
    assert es[..k + 1][..k] == es[..k];
  }

  /** ListEnvs' loop over the directory listing: subdirectories are skipped
      and every `.yaml` or `.yml` file contributes its name without the
      extension. */
  method CollectEnvNames(es: seq<DirEntry>) returns (envs: seq<string>)
    ensures envs == EnvNames(es)
  {
    envs := [];
    for k := 0 to |es|
      invariant envs == EnvNames(es[..k])
    {
      EnvNamesSnoc(es, k);
      var e := es[k];
      if e.isDir {
        continue;
      }
      var name := e.name;
      if HasSuffix(name, ".yaml") || HasSuffix(name, ".yml") {
        envs := envs + [TrimSuffix(name, Ext(name))];
      }
    }
    assert es[..|es|] == es;
  }

  /** Some entry of the listing contributes `x`. */
  ghost predicate Contributed(entries: seq<DirEntry>, x: string) {
    exists j :: 0 <= j < |entries| && x in EnvName(entries[j])
  }

  /** Every name listEnvs returns comes from a YAML file entry, and every YAML
      file entry contributes its name: both directions. */
  lemma {:induction false} EnvNamesMembers(entries: seq<DirEntry>, x: string)
    ensures x in EnvNames(entries) <==> Contributed(entries, x)
  {
    if |entries| > 0 {
      var init := entries[..|entries| - 1];
      EnvNamesMembers(init, x);
      EnvNamesLast(entries, x);
    }
  }

  lemma EnvNamesLast(entries: seq<DirEntry>, x: string)
    requires |entries| > 0
    requires x in EnvNames(entries[..|entries| - 1]) <==> Contributed(entries[..|entries| - 1], x)
    ensures x in EnvNames(entries) <==> Contributed(entries, x)
  {
    EnvNamesLastOnlyIf(entries, x);
    EnvNamesLastIf(entries, x);
  }

  lemma EnvNamesLastOnlyIf(entries: seq<DirEntry>, x: string)
    requires |entries| > 0
    requires x in EnvNames(entries[..|entries| - 1]) ==> Contributed(entries[..|entries| - 1], x)
    ensures x in EnvNames(entries) ==> Contributed(entries, x)
  {
    var init := entries[..|entries| - 1];
    assert EnvNames(entries) == EnvNames(init) + EnvName(entries[|entries| - 1]);
    if x in EnvNames(entries) {
      if x in EnvNames(init) {
        var j :| 0 <= j < |init| && x in EnvName(init[j]);
        assert entries[j] == init[j];
      } else {
        assert x in EnvName(entries[|entries| - 1]);
      }
    }
  }

  lemma EnvNamesLastIf(entries: seq<DirEntry>, x: string)
    requires |entries| > 0
    requires Contributed(entries[..|entries| - 1], x) ==> x in EnvNames(entries[..|entries| - 1])
    ensures Contributed(entries, x) ==> x in EnvNames(entries)
  {
    if Contributed(entries, x) {
      var j :| 0 <= j < |entries| && x in EnvName(entries[j]);
      if j < |entries| - 1 {
        EnvNamesFromInit(entries, j, x);
      } else {
        EnvNamesFromLast(entries, x);
      }
    }
  }

  lemma EnvNamesFromInit(entries: seq<DirEntry>, j: nat, x: string)
    requires j < |entries| - 1 && x in EnvName(entries[j])
    requires Contributed(entries[..|entries| - 1], x) ==> x in EnvNames(entries[..|entries| - 1])
    ensures x in EnvNames(entries)
  {
    var init := entries[..|entries| - 1];
    assert init[j] == entries[j];
    assert Contributed(init, x);
  }

  lemma EnvNamesFromLast(entries: seq<DirEntry>, x: string)
    requires |entries| > 0 && x in EnvName(entries[|entries| - 1])
    ensures x in EnvNames(entries)
  {
  }

  /** Directory order is kept: the names of a concatenated listing are the
      names of its parts, concatenated. */
  lemma {:induction false} EnvNamesAppend(a: seq<DirEntry>, b: seq<DirEntry>)
    ensures EnvNames(a + b) == EnvNames(a) + EnvNames(b)
    decreases |b|
  {
    if |b| == 0 {
      assert a + b == a;
    } else {
      var b' := b[..|b| - 1];
      assert (a + b)[..|a + b| - 1] == a + b';
      EnvNamesAppend(a, b');
    }
  }

  // ---------------------------------------------------------------------------
  // The store's state and its operations, as values
  // ---------------------------------------------------------------------------

  /** The DataStore's fields besides dataDir; `enabledApps` is the `*EnabledApps` field,
      None while nil. */
  datatype Cache = Cache(
    enabledAppsLoaded: bool,
    enabledApps: Option<EnabledApps>,
    appEnvCache: map<string, map<string, AppEnvData>>,
    envListCache: map<string, seq<string>>)

  /** The state NewDataStore returns. */
  const Fresh: Cache := Cache(false, None, map[], map[])

  /** A loaded flag always comes with a loaded list. */
  predicate Consistent(c: Cache) {
    c.enabledAppsLoaded ==> c.enabledApps.Some?
  }

  datatype Step<T> = Step(cache: Cache, result: T)

  function LoadEnabledAppsStep(c: Cache, dataDir: string, disk: Disk): (r: Step<Result<EnabledApps, Error>>)
    requires Consistent(c)
    ensures Consistent(r.cache)
    ensures c.enabledAppsLoaded ==> r == Step(c, Ok(c.enabledApps.value))
    ensures !c.enabledAppsLoaded ==> r.result == EnabledAppsOnDisk(disk, dataDir)
    ensures r.cache.enabledAppsLoaded <==> c.enabledAppsLoaded || r.result.Ok?
    ensures r.cache.appEnvCache == c.appEnvCache && r.cache.envListCache == c.envListCache
  {
    if c.enabledAppsLoaded then Step(c, Ok(c.enabledApps.value))
    else
      var loaded := EnabledAppsOnDisk(disk, dataDir);
      if loaded.Err? then Step(c, loaded)
      else Step(c.(enabledApps := Some(loaded.value), enabledAppsLoaded := true), loaded)
  }

  function LoadAppEnvStep(c: Cache, dataDir: string, app: string, env: string, disk: Disk): (r: Step<Result<AppEnvData, Error>>)
    ensures app in c.appEnvCache && env in c.appEnvCache[app] ==> r == Step(c, Ok(c.appEnvCache[app][env]))
    ensures !(app in c.appEnvCache && env in c.appEnvCache[app]) ==> r.result == AppEnvOnDisk(disk, dataDir, app, env)
    ensures app in r.cache.appEnvCache
    ensures r.cache.enabledAppsLoaded == c.enabledAppsLoaded && r.cache.enabledApps == c.enabledApps
    ensures r.cache.envListCache == c.envListCache
  {
    if app in c.appEnvCache && env in c.appEnvCache[app] then Step(c, Ok(c.appEnvCache[app][env]))
    else
      var inner := if app in c.appEnvCache then c.appEnvCache[app] else map[];
      var c1 := c.(appEnvCache := c.appEnvCache[app := inner]);
      var loaded := AppEnvOnDisk(disk, dataDir, app, env);
      if loaded.Err? then Step(c1, loaded)
      else Step(c1.(appEnvCache := c1.appEnvCache[app := inner[env := loaded.value]]), loaded)
  }

  function ListEnvsStep(c: Cache, dataDir: string, app: string, disk: Disk): (r: Step<Result<seq<string>, Error>>)
    ensures app in c.envListCache ==> r == Step(c, Ok(c.envListCache[app]))
    ensures app !in c.envListCache ==> r.result == match ReadDir(disk, [dataDir, app])
                                                   case Ok(entries) => Ok(EnvNames(entries))
                                                   case Err(e) => Err(e)
    ensures r.cache.enabledAppsLoaded == c.enabledAppsLoaded && r.cache.enabledApps == c.enabledApps
    ensures r.cache.appEnvCache == c.appEnvCache
  {
    if app in c.envListCache then Step(c, Ok(c.envListCache[app]))
    else
      match ReadDir(disk, [dataDir, app])
      case Err(e) => Step(c, Err(e))
      case Ok(entries) => Step(c.(envListCache := c.envListCache[app := EnvNames(entries)]), Ok(EnvNames(entries)))
  }

  /** What GetUserList hands back; `NilDereference` is the panic of
      dereferencing the nil list a failed load returns. */
  datatype UserList = Users(users: seq<string>) | Failed(error: Error) | NilDereference

  /** GetUserList's decision on what loadEnabledApps returned, as written:
      only a not-exist load error is turned into an error. */
  function UsersFrom(loaded: Result<EnabledApps, Error>, appName: string): UserList {
    if loaded.Err? && IsNotExist(loaded.error) then Failed(Message("Cache load failed. app name: " + appName))
    else if loaded.Err? then NilDereference
    else if appName !in loaded.value then Failed(Message(appName + " not found"))
    else Users(loaded.value[appName].users)
  }

  function UserListStep(c: Cache, dataDir: string, appName: string, disk: Disk): (r: Step<UserList>)
    requires Consistent(c)
    ensures Consistent(r.cache)
    ensures r.cache == LoadEnabledAppsStep(c, dataDir, disk).cache
  {
    var loaded := LoadEnabledAppsStep(c, dataDir, disk);
    Step(loaded.cache, UsersFrom(loaded.result, appName))
  }

  // ---------------------------------------------------------------------------
  // The store object
  // ---------------------------------------------------------------------------

  class DataStore {
    const dataDir: string
    var enabledAppsLoaded: bool
    var enabledApps: Option<EnabledApps>
    var appEnvCache: map<string, map<string, AppEnvData>>
    var envListCache: map<string, seq<string>>

    function Snapshot(): Cache
      reads this
    {
      Cache(enabledAppsLoaded, enabledApps, appEnvCache, envListCache)
    }

    predicate Valid()
      reads this
    {
      Consistent(Snapshot())
    }

    /** NewDataStore. */
    constructor (dataDir: string)
      ensures this.dataDir == dataDir
      ensures Snapshot() == Fresh && Valid()
    {
      this.dataDir := dataDir;
      enabledAppsLoaded := false;
      enabledApps := None;
      appEnvCache := map[];
      envListCache := map[];
    }

    method LoadEnabledApps(disk: Disk) returns (r: Result<EnabledApps, Error>)
      requires Valid()
      modifies this
      ensures Valid()
      ensures Snapshot() == LoadEnabledAppsStep(old(Snapshot()), dataDir, disk).cache
      ensures r == LoadEnabledAppsStep(old(Snapshot()), dataDir, disk).result
    {
      if enabledAppsLoaded {
        return Ok(enabledApps.value);
      }
      var b := ReadFile(disk, [dataDir, EnabledAppList]);
      if b.Err? {
        return Err(b.error);
      }
      if !b.value.EnabledAppsDoc? {
        return Err(ParseFailure([dataDir, EnabledAppList], "not an enabled-app list"));
      }
      enabledApps := Some(b.value.apps);
      enabledAppsLoaded := true;
      return Ok(enabledApps.value);
    }

    method LoadAppEnv(app: string, env: string, disk: Disk) returns (r: Result<AppEnvData, Error>)
      modifies this
      ensures Snapshot() == LoadAppEnvStep(old(Snapshot()), dataDir, app, env, disk).cache
      ensures r == LoadAppEnvStep(old(Snapshot()), dataDir, app, env, disk).result
    {
      if app in appEnvCache && env in appEnvCache[app] {
        return Ok(appEnvCache[app][env]);
      }
      if app !in appEnvCache {
        appEnvCache := appEnvCache[app := map[]];
      }
      var p := [dataDir, app, env + ".yaml"];
      var b := ReadFile(disk, p);
      if b.Err? {
        return Err(b.error);
      }
      if !b.value.AppEnvDoc? {
        return Err(ParseFailure(p, "not an application environment"));
      }
      var data := b.value.data;
      appEnvCache := appEnvCache[app := appEnvCache[app][env := data]];
      return Ok(data);
    }

    method ListEnvs(app: string, disk: Disk) returns (r: Result<seq<string>, Error>)
      modifies this
      ensures Snapshot() == ListEnvsStep(old(Snapshot()), dataDir, app, disk).cache
      ensures r == ListEnvsStep(old(Snapshot()), dataDir, app, disk).result
    {
      if app in envListCache {
        return Ok(envListCache[app]);
      }
      var entries := ReadDir(disk, [dataDir, app]);
      if entries.Err? {
        return Err(entries.error);
      }
      var envs := CollectEnvNames(entries.value);
      envListCache := envListCache[app := envs];
      return Ok(envs);
    }

    method GetUserList(appName: string, disk: Disk) returns (r: UserList)
      requires Valid()
      modifies this
      ensures Valid()
      ensures Snapshot() == UserListStep(old(Snapshot()), dataDir, appName, disk).cache
      ensures r == UserListStep(old(Snapshot()), dataDir, appName, disk).result
    {
      var apps := LoadEnabledApps(disk);
      if apps.Err? && IsNotExist(apps.error) {
        return Failed(Message("Cache load failed. app name: " + appName));
      }
      if apps.Err? {
        // `*apps` with `apps` nil
        return NilDereference;
      }
      if appName !in apps.value {
        return Failed(Message(appName + " not found"));
      }
      return Users(apps.value[appName].users);
    }
  }

  // ---------------------------------------------------------------------------
  // Cache properties
  // ---------------------------------------------------------------------------

  /** A call never forgets what the caches hold: every cached list, every
      cached environment and a loaded enabled-app list stay as they are. */
  ghost predicate Extends(c: Cache, c': Cache) {
    && (c.enabledAppsLoaded ==> c'.enabledAppsLoaded && c'.enabledApps == c.enabledApps)
    && (forall a :: a in c.envListCache ==> a in c'.envListCache && c'.envListCache[a] == c.envListCache[a])
    && (forall a :: a in c.appEnvCache ==> a in c'.appEnvCache)
    && (forall a, e :: a in c.appEnvCache && e in c.appEnvCache[a] ==>
          e in c'.appEnvCache[a] && c'.appEnvCache[a][e] == c.appEnvCache[a][e])
  }

  /** The calls a DataStore accepts, for stating what any sequence of them does. */
  datatype Request =
    | LoadEnabledAppsReq(disk: Disk)
    | LoadAppEnvReq(app: string, env: string, disk: Disk)
    | ListEnvsReq(app: string, disk: Disk)
    | UserListReq(appName: string, disk: Disk)

  function Apply(c: Cache, dataDir: string, q: Request): (c': Cache)
    requires Consistent(c)
    ensures Consistent(c')
  {
    match q
    case LoadEnabledAppsReq(disk) => LoadEnabledAppsStep(c, dataDir, disk).cache
    case LoadAppEnvReq(app, env, disk) => LoadAppEnvStep(c, dataDir, app, env, disk).cache
    case ListEnvsReq(app, disk) => ListEnvsStep(c, dataDir, app, disk).cache
    case UserListReq(appName, disk) => UserListStep(c, dataDir, appName, disk).cache
  }

  function ApplyAll(c: Cache, dataDir: string, qs: seq<Request>): (c': Cache)
    requires Consistent(c)
    ensures Consistent(c')
    decreases |qs|
  {
    if |qs| == 0 then c else ApplyAll(Apply(c, dataDir, qs[0]), dataDir, qs[1..])
  }

  lemma ApplyExtends(c: Cache, dataDir: string, q: Request)
    requires Consistent(c)
    ensures Extends(c, Apply(c, dataDir, q))
  {
  }

  lemma ExtendsTransitive(c1: Cache, c2: Cache, c3: Cache)
    requires Extends(c1, c2) && Extends(c2, c3)
    ensures Extends(c1, c3)
  {
  }

  lemma {:induction false} ApplyAllExtends(c: Cache, dataDir: string, qs: seq<Request>)
    requires Consistent(c)
    ensures Extends(c, ApplyAll(c, dataDir, qs))
    decreases |qs|
  {
    if |qs| > 0 {
      var c1 := Apply(c, dataDir, qs[0]);
      ApplyExtends(c, dataDir, qs[0]);
      ApplyAllExtends(c1, dataDir, qs[1..]);
      ExtendsTransitive(c, c1, ApplyAll(c1, dataDir, qs[1..]));
    }
  }

  /** Once listEnvs(app) succeeds, every later listEnvs(app) on the same store
      returns that list, whatever calls came between and however the disk
      changed. */
  lemma ListEnvsIsMemoised(c: Cache, dataDir: string, app: string, disk: Disk,
                           between: seq<Request>, later: Disk)
    requires Consistent(c)
    requires ListEnvsStep(c, dataDir, app, disk).result.Ok?
    ensures var first := ListEnvsStep(c, dataDir, app, disk);
      var c2 := ApplyAll(first.cache, dataDir, between);
      ListEnvsStep(c2, dataDir, app, later) == Step(c2, first.result)
  {
    var first := ListEnvsStep(c, dataDir, app, disk);
    assert app in first.cache.envListCache && first.cache.envListCache[app] == first.result.value;
    ApplyAllExtends(first.cache, dataDir, between);
  }

  /** A fresh store reads the directory: its first listEnvs is the listing of
      the disk it is given. */
  lemma FreshStoreReadsDirectory(dataDir: string, app: string, disk: Disk)
    ensures ListEnvsStep(Fresh, dataDir, app, disk).result ==
      match ReadDir(disk, [dataDir, app])
      case Ok(entries) => Ok(EnvNames(entries))
      case Err(e) => Err(e)
  {
  }

  /** listEnvs with nothing at the directory path returns a not-exist error
      and caches nothing. */
  lemma MissingDirectoryCachesNothing(c: Cache, dataDir: string, app: string, disk: Disk)
    requires app !in c.envListCache
    requires [dataDir, app] !in disk.dirs && [dataDir, app] !in disk.files && [dataDir, app] !in disk.unreadable
    ensures var r := ListEnvsStep(c, dataDir, app, disk);
      && r.result == Err(NotExist([dataDir, app]))
      && IsNotExist(r.result.error)
      && r.cache == c
  {
  }

  /** listEnvs with a regular file at the directory path returns ENOTDIR,
      which is not a not-exist error, and caches nothing. */
  lemma FileForDirectoryCachesNothing(c: Cache, dataDir: string, app: string, disk: Disk)
    requires app !in c.envListCache
    requires [dataDir, app] !in disk.dirs && [dataDir, app] in disk.files && [dataDir, app] !in disk.unreadable
    ensures var r := ListEnvsStep(c, dataDir, app, disk);
      && r.result == Err(NotADirectory([dataDir, app]))
      && !IsNotExist(r.result.error)
      && r.cache == c
  {
  }

  /** A failed loadAppEnv caches nothing for that environment, though the
      application's inner map now exists. */
  lemma FailedAppEnvCachesNothing(c: Cache, dataDir: string, app: string, env: string, disk: Disk)
    requires LoadAppEnvStep(c, dataDir, app, env, disk).result.Err?
    ensures var r := LoadAppEnvStep(c, dataDir, app, env, disk);
      && app in r.cache.appEnvCache
      && env !in r.cache.appEnvCache[app]
      && r.cache.appEnvCache == c.appEnvCache[app := if app in c.appEnvCache then c.appEnvCache[app] else map[]]
  {
  }

  /** A successful loadAppEnv is memoised per (app, env). */
  lemma LoadAppEnvIsMemoised(c: Cache, dataDir: string, app: string, env: string, disk: Disk, later: Disk)
    requires LoadAppEnvStep(c, dataDir, app, env, disk).result.Ok?
    ensures var first := LoadAppEnvStep(c, dataDir, app, env, disk);
      LoadAppEnvStep(first.cache, dataDir, app, env, later) == Step(first.cache, first.result)
  {
  }

  /** A failed loadEnabledApps leaves the flag down, so the next call reads
      the disk again. */
  lemma FailedEnabledAppsLoadRetries(c: Cache, dataDir: string, disk: Disk, later: Disk)
    requires Consistent(c)
    requires LoadEnabledAppsStep(c, dataDir, disk).result.Err?
    ensures var first := LoadEnabledAppsStep(c, dataDir, disk);
      && !first.cache.enabledAppsLoaded
      && LoadEnabledAppsStep(first.cache, dataDir, later).result == EnabledAppsOnDisk(later, dataDir)
  {
  }

  /** GetUserList, as written: the entry's users when the app is listed,
      "<app> not found" when it is not, "Cache load failed" on a not-exist
      load error, and a nil dereference on any other load error. */
  lemma UserListOutcomes(c: Cache, dataDir: string, appName: string, disk: Disk)
    requires Consistent(c)
    ensures var loaded := LoadEnabledAppsStep(c, dataDir, disk).result;
      var r := UserListStep(c, dataDir, appName, disk).result;
      && (loaded.Ok? && appName in loaded.value ==> r == Users(loaded.value[appName].users))
      && (loaded.Ok? && appName !in loaded.value ==> r == Failed(Message(appName + " not found")))
      && (loaded.Err? && IsNotExist(loaded.error) ==> r == Failed(Message("Cache load failed. app name: " + appName)))
      && (loaded.Err? && !IsNotExist(loaded.error) ==> r == NilDereference)
  {
  }

  /** A store whose enabled-app list does not decode, or is a directory:
      GetUserList dereferences nil. */
  lemma MalformedListDereferencesNil(dataDir: string, appName: string)
    ensures var disk := Disk(map[[dataDir, EnabledAppList] := Malformed("bad yaml")], map[], map[]);
      UserListStep(Fresh, dataDir, appName, disk).result == NilDereference
    ensures var disk := Disk(map[], map[[dataDir, EnabledAppList] := []], map[]);
      UserListStep(Fresh, dataDir, appName, disk).result == NilDereference
  {
    var disk := Disk(map[[dataDir, EnabledAppList] := Malformed("bad yaml")], map[], map[]);
    assert EnabledAppsOnDisk(disk, dataDir).Err?;
    var dirDisk := Disk(map[], map[[dataDir, EnabledAppList] := []], map[]);
    assert EnabledAppsOnDisk(dirDisk, dataDir).Err?;
  }

  /** GetUserList as evidently intended: every load error is returned. */
  function IntendedUsersFrom(loaded: Result<EnabledApps, Error>, appName: string): (r: UserList)
    ensures r != NilDereference
    ensures loaded.Ok? || IsNotExist(loaded.error) ==> r == UsersFrom(loaded, appName)
    ensures loaded.Err? ==> r.Failed?
  {
    if loaded.Err? && IsNotExist(loaded.error) then Failed(Message("Cache load failed. app name: " + appName))
    else if loaded.Err? then Failed(loaded.error)
    else if appName !in loaded.value then Failed(Message(appName + " not found"))
    else Users(loaded.value[appName].users)
  }
}
