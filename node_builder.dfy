/**
 * The `@now/node` builder: installs the user's dependencies next to the entrypoint, bundles the
 * entrypoint with ncc, and ships the bundle, its assets, a launcher and the bridge as the one
 * Lambda of the build.
 */
module NodeBuilder {
  import opened Wrappers
  import opened Text
  import opened Paths
  import opened FileSets
  import opened Workspace
  import opened Maps

  const Handler := "launcher.launcher"
  const Runtime := "nodejs8.10"
  const LauncherKey := "launcher.js"
  const BridgeKey := "bridge.js"
  const Placeholder := "// PLACEHOLDER"
  const BuildScript := "now-build"
  /** `exports.config`: the largest Lambda the platform should accept from this builder. */
  const MaxLambdaSize := "5mb"
  /** `build` installs with `--prefer-offline`; `prepareCache` passes no options, so no arguments. */
  const BuildArgs: seq<string> := ["--prefer-offline"]
  const CacheArgs: seq<string> := []

  /** `downloadedFiles[entrypoint].fsPath` throws when the entrypoint is not among the files. */
  datatype Error = EntrypointMissing(entrypoint: string)

  // ---------------------------------------------------------------------------------------------
  // downloadInstallAndBundle

  /** `join(userPath, dirname(entrypoint))`: the directory holding the entrypoint. */
  function EntrypointDir(userPath: string, entrypoint: string): string {
    Join(userPath, Dirname(entrypoint))
  }

  /**
   * Downloads the user's files, installs their dependencies in the entrypoint's directory, then
   * writes ncc's package.json and installs ncc. Both installs get the same `npmArgs`.
   */
  method DownloadInstallAndBundle(dir: WorkDir, files: FileSet, entrypoint: string, npmArgs: seq<string>,
                                  tools: Tools)
    returns (downloaded: FileSet, nccPath: string, entrypointFsDirname: string)
    modifies dir
    ensures downloaded == Relocated(dir.UserPath(), files)
    ensures nccPath == dir.NccPath() && entrypointFsDirname == EntrypointDir(dir.UserPath(), entrypoint)
    ensures dir.user == tools.npmInstall(Dirname(entrypoint), old(dir.user) + files, npmArgs)
    ensures dir.ncc == tools.npmInstall(".", old(dir.ncc)["package.json" := Blob(NccManifest)], npmArgs)
    ensures dir.log == old(dir.log) + [Step(NpmInstall(entrypointFsDirname, npmArgs), old(dir.user) + files),
                                       Step(NpmInstall(nccPath, npmArgs), old(dir.ncc)["package.json" := Blob(NccManifest)])]
  {
    nccPath := dir.NccPath();
    downloaded := dir.DownloadUser(files);
    entrypointFsDirname := EntrypointDir(dir.UserPath(), entrypoint);
    dir.InstallUser(tools, Dirname(entrypoint), npmArgs);
    dir.InstallNcc(tools, npmArgs);
  }

  // ---------------------------------------------------------------------------------------------
  // compile

  /** `join('user', entrypoint)`: where the bundled code goes. */
  function CodeKey(entrypoint: string): string {
    Join("user", entrypoint)
  }

  /** `join('user', dirname(entrypoint), assetName)`: where an asset goes. */
  function AssetKey(entrypoint: string, asset: string): string {
    Join(Join("user", Dirname(entrypoint)), asset)
  }

  function AssetKeyFor(entrypoint: string): string -> string {
    asset => AssetKey(entrypoint, asset)
  }

  function AssetBlobFor(assets: map<string, string>): string -> FileRef {
    asset => if asset in assets then Blob(assets[asset]) else Undefined
  }

  /** Two asset names never share a path. */
  lemma AssetKeysInjective(entrypoint: string, names: set<string>)
    ensures Injective(names, AssetKeyFor(entrypoint))
  {
    forall p, q | p in names && q in names && AssetKeyFor(entrypoint)(p) == AssetKeyFor(entrypoint)(q)
      ensures p == q
    {
      JoinInjective(Join("user", Dirname(entrypoint)), p, q);
    }
  }

  /** Every asset, each under its own path next to the entrypoint's place under `user`. */
  function AssetFiles(entrypoint: string, assets: map<string, string>): FileSet {
    AssetKeysInjective(entrypoint, assets.Keys);
    KeyedBy(assets.Keys, AssetKeyFor(entrypoint), AssetBlobFor(assets))
  }

  /** `preparedFiles` once `compile` is done: the code first, then the assets written over it. */
  function Prepared(entrypoint: string, bundle: Bundle): FileSet {
    map[CodeKey(entrypoint) := Blob(bundle.code)] + AssetFiles(entrypoint, bundle.assets)
  }

  /**
   * `compile`: bundles the downloaded entrypoint and stores the code and then each asset, in
   * whatever order `Object.keys` lists the assets.
   */
  method Compile(downloaded: FileSet, entrypoint: string, tools: Tools) returns (r: Result<FileSet, Error>)
    ensures r.Success? <==> entrypoint in downloaded
    ensures r.Failure? ==> r.error == EntrypointMissing(entrypoint)
    ensures r.Success? ==> r.value == Prepared(entrypoint, tools.ncc(downloaded[entrypoint]))
  {
    if entrypoint !in downloaded {
      return Failure(EntrypointMissing(entrypoint));
    }
    var bundle := tools.ncc(downloaded[entrypoint]);
    var preparedFiles: FileSet := map[];
    preparedFiles := preparedFiles[CodeKey(entrypoint) := Blob(bundle.code)];
    ghost var code := preparedFiles;
    ghost var key, val := AssetKeyFor(entrypoint), AssetBlobFor(bundle.assets);
    AssetKeysInjective(entrypoint, bundle.assets.Keys);
    var remaining := bundle.assets.Keys;
    while remaining != {}
      invariant remaining <= bundle.assets.Keys
      invariant preparedFiles == code + KeyedBy(bundle.assets.Keys - remaining, key, val)
      decreases remaining
    {
      var assetName :| assetName in remaining;
      ghost var done := bundle.assets.Keys - remaining;
      InjectiveSubset(bundle.assets.Keys, done + {assetName}, key);
      KeyedByAdd(done, key, val, assetName);
      UpdateSpread(code, KeyedBy(done, key, val), key(assetName), val(assetName));
      assert done + {assetName} == bundle.assets.Keys - (remaining - {assetName});
      preparedFiles := preparedFiles[AssetKey(entrypoint, assetName) := Blob(bundle.assets[assetName])];
      remaining := remaining - {assetName};
    }
    assert bundle.assets.Keys - remaining == bundle.assets.Keys;
    r := Success(preparedFiles);
  }

  /**
   * The prepared files are the code and the assets and nothing else, all under `user`; every asset
   * holds its data, and the code survives unless an asset was written at its path.
   */
  lemma PreparedContents(entrypoint: string, bundle: Bundle)
    ensures var p := Prepared(entrypoint, bundle);
      && (forall k :: k in p <==> k == CodeKey(entrypoint) || exists a :: a in bundle.assets && k == AssetKey(entrypoint, a))
      && (forall a :: a in bundle.assets ==> p[AssetKey(entrypoint, a)] == Blob(bundle.assets[a]))
      && ((forall a :: a in bundle.assets ==> AssetKey(entrypoint, a) != CodeKey(entrypoint)) ==>
            p[CodeKey(entrypoint)] == Blob(bundle.code))
      && (forall k :: k in p ==> StartsWith(k, "user"))
  {
    var p := Prepared(entrypoint, bundle);
    var assets := AssetFiles(entrypoint, bundle.assets);
    JoinStartsWith("user", entrypoint);
    JoinStartsWith("user", Dirname(entrypoint));
    forall k | k in assets ensures StartsWith(k, "user") {
      var a :| a in bundle.assets && k == AssetKey(entrypoint, a);
      JoinStartsWith(Join("user", Dirname(entrypoint)), a);
      StartsWithTransitive(k, Join("user", Dirname(entrypoint)), "user");
    }
  }

  /** `join(dir, x)` starts with `dir` unless `dir` is the empty path. */
  lemma JoinStartsWith(dir: string, x: string)
    requires dir != "."
    ensures StartsWith(Join(dir, x), dir)
  {
  }

  /**
   * For a relative entrypoint whose directory is written without "./", an asset lands on the code's
   * path exactly when it is named like the entrypoint's file.
   */
  lemma AssetKeyIsCodeKey(entrypoint: string, asset: string)
    requires asset != "."
    requires LastSlash(entrypoint) != 0
    requires LastSlash(entrypoint) > 0 ==> entrypoint[..LastSlash(entrypoint)] != "."
    ensures AssetKey(entrypoint, asset) == CodeKey(entrypoint) <==> asset == Basename(entrypoint)
  {
    JoinBesideIsJoin("user", entrypoint, asset);
  }

  /** An asset named like the entrypoint's file replaces the bundled code; otherwise the code stays. */
  lemma AssetReplacesCode(entrypoint: string, bundle: Bundle)
    requires "." !in bundle.assets
    requires LastSlash(entrypoint) != 0
    requires LastSlash(entrypoint) > 0 ==> entrypoint[..LastSlash(entrypoint)] != "."
    ensures CodeKey(entrypoint) in Prepared(entrypoint, bundle)
    ensures Prepared(entrypoint, bundle)[CodeKey(entrypoint)]
         == if Basename(entrypoint) in bundle.assets then Blob(bundle.assets[Basename(entrypoint)])
            else Blob(bundle.code)
  {
    PreparedContents(entrypoint, bundle);
    forall a | a in bundle.assets ensures AssetKey(entrypoint, a) == CodeKey(entrypoint) <==> a == Basename(entrypoint) {
      AssetKeyIsCodeKey(entrypoint, a);
    }
  }

  // ---------------------------------------------------------------------------------------------
  // build

  const Chdir := "process.chdir(\"./user\");"
  const UseDefault := "if (listener.default) listener = listener.default;"

  /** Loads the bundled code from where `compile` put it, relative to the Lambda's root. */
  function RequireStatement(entrypoint: string): string {
    "listener = require(\"./" + CodeKey(entrypoint) + "\");"
  }

  function LauncherStatements(entrypoint: string): string {
    JoinWith([Chdir, RequireStatement(entrypoint), UseDefault], " ")
  }

  /** launcher.js with its first `// PLACEHOLDER` replaced by the three statements. */
  function NodeLauncher(template: string, entrypoint: string): string {
    ReplaceFirst(template, Placeholder, LauncherStatements(entrypoint))
  }

  /**
   * The statements are joined by single spaces; they take the place of the first placeholder and
   * the rest of the template is kept, so the launcher requires the bundled code whenever the template
   * has a placeholder. A template without one is shipped as it is.
   */
  lemma LauncherText(template: string, entrypoint: string)
    ensures LauncherStatements(entrypoint) == Chdir + " " + RequireStatement(entrypoint) + " " + UseDefault
    ensures forall i :: IsFirstOccurrence(template, Placeholder, i) ==>
      NodeLauncher(template, entrypoint) == template[..i] + LauncherStatements(entrypoint) + template[i + |Placeholder|..]
    ensures Contains(template, Placeholder) ==> Contains(NodeLauncher(template, entrypoint), RequireStatement(entrypoint))
    ensures !Contains(template, Placeholder) ==> NodeLauncher(template, entrypoint) == template
  {
    JoinWithThree(Chdir, RequireStatement(entrypoint), UseDefault, " ");
    if Contains(template, Placeholder) {
      JoinWithThreeContainsMiddle(Chdir, RequireStatement(entrypoint), UseDefault, " ");
      ReplaceFirstContains(template, Placeholder, LauncherStatements(entrypoint), RequireStatement(entrypoint));
    }
  }

  /** `{ ...preparedFiles, ...launcherFiles }`. */
  function LambdaFiles(prepared: FileSet, launcher: string, bridgePath: string): FileSet {
    prepared + map[LauncherKey := Blob(launcher), BridgeKey := FsRef(bridgePath)]
  }

  /** The Lambda `build` creates for one bundle. */
  function NodeLambda(entrypoint: string, bundle: Bundle, env: Env): Lambda {
    Lambda(LambdaFiles(Prepared(entrypoint, bundle), NodeLauncher(env.launcherTemplate, entrypoint), env.bridgePath),
           Handler, Runtime)
  }

  /** The launcher files go on top of files that all lie under `user`, so they overwrite none. */
  lemma LambdaFilesOverUser(prepared: FileSet, launcher: string, bridgePath: string)
    requires forall k :: k in prepared ==> StartsWith(k, "user")
    ensures var files := LambdaFiles(prepared, launcher, bridgePath);
      && files.Keys == prepared.Keys + {LauncherKey, BridgeKey}
      && (forall k :: k in prepared ==> files[k] == prepared[k])
      && files[LauncherKey] == Blob(launcher) && files[BridgeKey] == FsRef(bridgePath)
  {
    DiffersAt(LauncherKey, "user", 0);
    DiffersAt(BridgeKey, "user", 0);
  }

  /**
   * The Lambda holds the prepared files, untouched, plus launcher.js and bridge.js and nothing else;
   * it runs `launcher.launcher` on nodejs8.10, and the file its launcher requires is among its files.
   */
  lemma NodeLambdaContents(entrypoint: string, bundle: Bundle, env: Env)
    ensures var l := NodeLambda(entrypoint, bundle, env);
      var p := Prepared(entrypoint, bundle);
      && l.handler == "launcher.launcher" && l.runtime == "nodejs8.10"
      && l.files.Keys == p.Keys + {"launcher.js", "bridge.js"}
      && (forall k :: k in p ==> l.files[k] == p[k])
      && l.files["launcher.js"] == Blob(NodeLauncher(env.launcherTemplate, entrypoint))
      && l.files["bridge.js"] == FsRef(env.bridgePath)
      && CodeKey(entrypoint) in l.files
  {
    PreparedContents(entrypoint, bundle);
    LambdaFilesOverUser(Prepared(entrypoint, bundle), NodeLauncher(env.launcherTemplate, entrypoint), env.bridgePath);
  }

  /** What `build` resolves to: the entrypoint, and only it, mapped to its Lambda. */
  function Output(entrypoint: string, bundle: Bundle, env: Env): map<string, Lambda> {
    map[entrypoint := NodeLambda(entrypoint, bundle, env)]
  }

  /**
   * `build`: download and install with `--prefer-offline`, run `now-build` where the entrypoint is,
   * then bundle the entrypoint as downloaded and wrap it into the Lambda.
   */
  method Build(dir: WorkDir, files: FileSet, entrypoint: string, env: Env, tools: Tools)
    returns (r: Result<map<string, Lambda>, Error>)
    modifies dir
    ensures r.Success? <==> entrypoint in files
    ensures r.Failure? ==> r.error == EntrypointMissing(entrypoint)
    ensures r.Success? ==>
      && r.value.Keys == {entrypoint}
      && r.value == Output(entrypoint, tools.ncc(FsRef(Join(dir.UserPath(), entrypoint))), env)
    ensures var installed := tools.npmInstall(Dirname(entrypoint), old(dir.user) + files, BuildArgs);
      var withManifest := old(dir.ncc)["package.json" := Blob(NccManifest)];
      && dir.user == tools.runScript(Dirname(entrypoint), installed, BuildScript)
      && dir.ncc == tools.npmInstall(".", withManifest, BuildArgs)
      && dir.log == old(dir.log) + [Step(NpmInstall(EntrypointDir(dir.UserPath(), entrypoint), BuildArgs), old(dir.user) + files),
                                    Step(NpmInstall(dir.NccPath(), BuildArgs), withManifest),
                                    Step(RunScript(EntrypointDir(dir.UserPath(), entrypoint), BuildScript), installed)]
  {
    var downloadedFiles, workNccPath, entrypointFsDirname := DownloadInstallAndBundle(dir, files, entrypoint, BuildArgs, tools);
    dir.RunUserScript(tools, Dirname(entrypoint), BuildScript);
    var preparedFiles := Compile(downloadedFiles, entrypoint, tools);
    if preparedFiles.Failure? {
      return Failure(preparedFiles.error);
    }
    var launcherData := ReplaceFirst(env.launcherTemplate, Placeholder, LauncherStatements(entrypoint));
    var launcherFiles := map[LauncherKey := Blob(launcherData), BridgeKey := FsRef(env.bridgePath)];
    var lambda := Lambda(preparedFiles.value + launcherFiles, Handler, Runtime);
    r := Success(map[entrypoint := lambda]);
  }

  // ---------------------------------------------------------------------------------------------
  // prepareCache

  /** The six globs spread together, over the listing of the cache directory. */
  function CacheFiles(listing: FileSet): FileSet {
    GlobTree(listing, "user/node_modules") + GlobFile(listing, "user/package-lock.json")
    + GlobFile(listing, "user/yarn.lock") + GlobTree(listing, "ncc/node_modules")
    + GlobFile(listing, "ncc/package-lock.json") + GlobFile(listing, "ncc/yarn.lock")
  }

  const LockFiles: set<string> := {"user/package-lock.json", "user/yarn.lock", "ncc/package-lock.json", "ncc/yarn.lock"}

  /** The paths, relative to the cache directory, that the globs of `prepareCache` match. */
  predicate CachePath(k: string) {
    StartsWith(k, "user/node_modules/") || StartsWith(k, "ncc/node_modules/") || k in LockFiles
  }

  /** Everything the globs collect is an entry of the listing, with its contents, at a cached path. */
  lemma CacheFilesSound(listing: FileSet)
    ensures Selected(CacheFiles(listing), listing, CachePath)
  {
    var trees := ["user/node_modules", "ncc/node_modules"];
    forall dir | dir in trees ensures Selected(GlobTree(listing, dir), listing, CachePath) {
      GlobTreeSelected(listing, dir, CachePath);
    }
    forall path | path in LockFiles ensures Selected(GlobFile(listing, path), listing, CachePath) {
      GlobFileSelected(listing, path, CachePath);
    }
    var c := GlobTree(listing, "user/node_modules");
    SelectedUnion(c, GlobFile(listing, "user/package-lock.json"), listing, CachePath);
    c := c + GlobFile(listing, "user/package-lock.json");
    SelectedUnion(c, GlobFile(listing, "user/yarn.lock"), listing, CachePath);
    c := c + GlobFile(listing, "user/yarn.lock");
    SelectedUnion(c, GlobTree(listing, "ncc/node_modules"), listing, CachePath);
    c := c + GlobTree(listing, "ncc/node_modules");
    SelectedUnion(c, GlobFile(listing, "ncc/package-lock.json"), listing, CachePath);
    c := c + GlobFile(listing, "ncc/package-lock.json");
    SelectedUnion(c, GlobFile(listing, "ncc/yarn.lock"), listing, CachePath);
  }

  /** Every matching entry of the listing is collected. */
  lemma CacheFilesComplete(listing: FileSet)
    ensures forall k :: k in listing && CachePath(k) ==> k in CacheFiles(listing)
  {
  }

  /** Under `user/`, only the dependency tree and the two lock files match. */
  lemma UserCachePath(k: string)
    requires CachePath(k) && StartsWith(k, "user/")
    ensures StartsWith(k, "user/node_modules/") || k == "user/package-lock.json" || k == "user/yarn.lock"
  {
    assert k[0] == 'u' by { assert k[..5][0] == k[0]; }
    DiffersAt(k, "ncc/node_modules/", 0);
  }

  /**
   * The cache keeps the two dependency trees and the four lock files, with their contents, and
   * nothing else; in particular nothing else of the user's directory.
   */
  lemma CacheFilesContents(listing: FileSet)
    ensures var cache := CacheFiles(listing);
      && (forall k :: k in cache <==> k in listing && CachePath(k))
      && (forall k :: k in cache ==> cache[k] == listing[k])
      && (forall k :: k in cache && StartsWith(k, "user/") ==>
            StartsWith(k, "user/node_modules/") || k == "user/package-lock.json" || k == "user/yarn.lock")
  {
    CacheFilesSound(listing);
    CacheFilesComplete(listing);
    forall k | k in CacheFiles(listing) && StartsWith(k, "user/")
      ensures StartsWith(k, "user/node_modules/") || k == "user/package-lock.json" || k == "user/yarn.lock"
    {
      UserCachePath(k);
    }
  }

  /**
   * `prepareCache`: the build directory is removed, then the download and both installs run, with
   * no npm arguments, in the cache directory, and the globs collect what to keep.
   */
  method PrepareCache(work: WorkDir, cache: WorkDir, files: FileSet, entrypoint: string, tools: Tools)
    returns (r: FileSet)
    modifies work, cache
    ensures work != cache ==> work.user == map[] && work.ncc == map[]
    ensures var before, nccBefore := if work == cache then map[] else old(cache.user), if work == cache then map[] else old(cache.ncc);
      && cache.user == tools.npmInstall(Dirname(entrypoint), before + files, CacheArgs)
      && cache.ncc == tools.npmInstall(".", nccBefore["package.json" := Blob(NccManifest)], CacheArgs)
      && cache.log == old(cache.log) + [Step(NpmInstall(EntrypointDir(cache.UserPath(), entrypoint), CacheArgs), before + files),
                                        Step(NpmInstall(cache.NccPath(), CacheArgs), nccBefore["package.json" := Blob(NccManifest)])]
    ensures r == CacheFiles(Relocated(cache.workPath, Listing(cache.user, cache.ncc)))
  {
    work.Remove();
    var _, _, _ := DownloadInstallAndBundle(cache, files, entrypoint, CacheArgs, tools);
    r := CacheFiles(Relocated(cache.workPath, Listing(cache.user, cache.ncc)));
  }
}
