/**
 * The `@now/next` builder: installs and builds a Next.js project, then packages the build as one
 * Lambda per page, the files under `.next/static` and the project's `static` directory.
 */
module NextBuilder {
  import opened Wrappers
  import opened Text
  import opened Paths
  import opened FileSets
  import opened Workspace
  import opened Maps

  const Handler := "now__launcher.launcher"
  const Runtime := "nodejs8.10"
  const LauncherKey := "now__launcher.js"
  const BridgeKey := "now__bridge.js"
  const NextConfig := "next.config.js"
  const CustomLauncher := "now.launcher.js"
  const BuildIdPath := ".next/BUILD_ID"
  const Npmrc := ".npmrc"
  const Placeholder := "PATHNAME_PLACEHOLDER"
  const ReservedPages: set<string> := {"_app.js", "_error.js", "_document.js"}
  const InstallArgs: seq<string> := ["--prefer-offline"]
  const ProductionArgs: seq<string> := ["--prefer-offline", "--production"]
  /** `exports.config`: the largest Lambda the platform should accept from this builder. */
  const MaxLambdaSize := "5mb"

  datatype Error = InvalidEntrypoint(entrypoint: string) | NpmrcMissing | MissingBuildId

  /** A value of the object `build` resolves to: a Lambda or a plain file. */
  datatype Output = LambdaOutput(lambda: Lambda) | FileOutput(file: FileRef)

  /** The helpers of the builder's `./utils` module; their definitions are not part of this model. */
  datatype Utils = Utils(
    validateEntrypoint: string -> bool,
    includeOnlyEntryDirectory: (FileSet, string) -> FileSet,
    moveEntryDirectoryToRoot: (FileSet, string) -> FileSet,
    excludeLockFiles: FileSet -> FileSet,
    excludeStaticDirectory: FileSet -> FileSet,
    onlyStaticDirectory: FileSet -> FileSet,
    // the package.json text written back for a given package.json text (None: there is none, `{}`)
    normalizePackageJson: Option<string> -> string)

  // ---------------------------------------------------------------------------------------------
  // downloadInstallAndBundle

  /** The user's files below the entry directory, moved to the root, without lock files. */
  function FilesWithoutLockfiles(utils: Utils, files: FileSet, entryDirectory: string): FileSet {
    utils.excludeLockFiles(
      utils.moveEntryDirectoryToRoot(utils.includeOnlyEntryDirectory(files, entryDirectory), entryDirectory))
  }

  /** What is downloaded into the user directory: the above without the static directory. */
  function DownloadedFiles(utils: Utils, files: FileSet, entrypoint: string): FileSet {
    utils.excludeStaticDirectory(FilesWithoutLockfiles(utils, files, Dirname(entrypoint)))
  }

  /** What `download` resolves to: those files as they lie in the user directory. */
  function Downloaded(userPath: string, utils: Utils, files: FileSet, entrypoint: string): FileSet {
    Relocated(userPath, DownloadedFiles(utils, files, entrypoint))
  }

  function NpmrcText(token: string): string {
    "//registry.npmjs.org/:_authToken=" + token
  }

  /** `if (process.env.NPM_AUTH_TOKEN)`: the variable is set and not empty. */
  predicate HasToken(npmAuthToken: Option<string>) {
    npmAuthToken.Some? && npmAuthToken.value != ""
  }

  /** The manifest written before the first install. */
  function PackageJson(utils: Utils, tools: Tools, downloaded: FileSet): string {
    utils.normalizePackageJson(
      if "package.json" in downloaded then Some(tools.readText(downloaded["package.json"])) else None)
  }

  /** The user's custom launcher compiled by ncc, when there is one among the downloaded files. */
  function BundledLauncher(tools: Tools, downloaded: FileSet): Option<FileRef> {
    if CustomLauncher in downloaded then Some(Blob(tools.ncc(downloaded[CustomLauncher]).code)) else None
  }

  /** The user directory once the download, the manifest and, with a token, `.npmrc` are written. */
  function Staged(before: FileSet, downloaded: FileSet, packageJson: string, npmAuthToken: Option<string>)
    : (staged: FileSet)
    ensures "package.json" in staged && staged["package.json"] == Blob(packageJson)
    ensures HasToken(npmAuthToken) ==> Npmrc in staged && staged[Npmrc] == Blob(NpmrcText(npmAuthToken.value))
    ensures !HasToken(npmAuthToken) ==> (Npmrc in staged <==> Npmrc in before + downloaded)
  {
    var withManifest := (before + downloaded)["package.json" := Blob(packageJson)];
    if HasToken(npmAuthToken) then withManifest[Npmrc := Blob(NpmrcText(npmAuthToken.value))] else withManifest
  }

  /** The user directory as `downloadInstallAndBundle` stages it under `userPath` before installing. */
  function StagedFor(before: FileSet, userPath: string, files: FileSet, entrypoint: string,
                     npmAuthToken: Option<string>, utils: Utils, tools: Tools): FileSet
  {
    Staged(before, DownloadedFiles(utils, files, entrypoint),
           PackageJson(utils, tools, Downloaded(userPath, utils, files, entrypoint)), npmAuthToken)
  }

  /**
   * Downloads the files into `user/`, writes the manifest normalised from the downloaded one and,
   * with a token, `.npmrc`; resolves to the downloaded files.
   */
  method StageUser(dir: WorkDir, files: FileSet, npmAuthToken: Option<string>, utils: Utils, tools: Tools)
    returns (downloaded: FileSet)
    modifies dir
    ensures downloaded == Relocated(dir.UserPath(), files)
    ensures dir.user == Staged(old(dir.user), files, PackageJson(utils, tools, downloaded), npmAuthToken)
    ensures dir.ncc == old(dir.ncc) && dir.log == old(dir.log)
  {
    downloaded := dir.DownloadUser(files);
    dir.WriteUser("package.json", PackageJson(utils, tools, downloaded));
    if HasToken(npmAuthToken) {
      dir.WriteUser(Npmrc, NpmrcText(npmAuthToken.value));
    }
  }

  /** The user directory after `npm install --prefer-offline`. */
  function Installed(tools: Tools, staged: FileSet): FileSet {
    tools.npmInstall(".", staged, InstallArgs)
  }

  /** ... then after `now-build`. */
  function Built(tools: Tools, staged: FileSet): FileSet {
    tools.runScript(".", Installed(tools, staged), "now-build")
  }

  /** ... then after the production install. */
  function Pruned(tools: Tools, staged: FileSet): FileSet {
    tools.npmInstall(".", Built(tools, staged), ProductionArgs)
  }

  /** The ncc directory with its manifest written. */
  function NccStaged(ncc: FileSet): FileSet {
    ncc["package.json" := Blob(NccManifest)]
  }

  /** The ncc directory after its install. */
  function NccInstalled(tools: Tools, ncc: FileSet): FileSet {
    tools.npmInstall(".", NccStaged(ncc), InstallArgs)
  }

  /** The four commands, each with the directory it found. */
  function CommandLog(userPath: string, nccPath: string, staged: FileSet, ncc: FileSet, tools: Tools): seq<Step> {
    [Step(NpmInstall(userPath, InstallArgs), staged),
     Step(RunScript(userPath, "now-build"), Installed(tools, staged)),
     Step(NpmInstall(nccPath, InstallArgs), NccStaged(ncc)),
     Step(NpmInstall(userPath, ProductionArgs), Built(tools, staged))]
  }

  /** The user directory once `downloadInstallAndBundle` has removed `.npmrc` again. */
  function Finished(staged: FileSet, npmAuthToken: Option<string>, tools: Tools): FileSet {
    if HasToken(npmAuthToken) then Pruned(tools, staged) - {Npmrc} else Pruned(tools, staged)
  }

  /**
   * Installs, runs `now-build`, installs ncc in its own directory, then prunes to production
   * dependencies.
   */
  method InstallAndBuild(dir: WorkDir, tools: Tools)
    modifies dir
    ensures dir.log == old(dir.log) + CommandLog(dir.UserPath(), dir.NccPath(), old(dir.user), old(dir.ncc), tools)
    ensures dir.user == Pruned(tools, old(dir.user))
    ensures dir.ncc == NccInstalled(tools, old(dir.ncc))
  {
    dir.InstallUser(tools, ".", InstallArgs);
    dir.RunUserScript(tools, ".", "now-build");
    dir.InstallNcc(tools, InstallArgs);
    dir.InstallUser(tools, ".", ProductionArgs);
  }

  /** The four commands run in this order, and the first install sees the staged manifest and `.npmrc`. */
  lemma CommandOrder(userPath: string, nccPath: string, before: FileSet, files: FileSet, entrypoint: string,
                     npmAuthToken: Option<string>, ncc: FileSet, utils: Utils, tools: Tools)
    ensures var staged := StagedFor(before, userPath, files, entrypoint, npmAuthToken, utils, tools);
      var log := CommandLog(userPath, nccPath, staged, ncc, tools);
      && Commands(log) == [NpmInstall(userPath, InstallArgs), RunScript(userPath, "now-build"),
                           NpmInstall(nccPath, InstallArgs), NpmInstall(userPath, ProductionArgs)]
      && "package.json" in log[0].seen
      && log[0].seen["package.json"] == Blob(PackageJson(utils, tools, Downloaded(userPath, utils, files, entrypoint)))
      && (HasToken(npmAuthToken) ==> Npmrc in log[0].seen && log[0].seen[Npmrc] == Blob(NpmrcText(npmAuthToken.value)))
      && log[1].seen == Installed(tools, log[0].seen) && log[3].seen == Built(tools, log[0].seen)
      && "package.json" in log[2].seen && log[2].seen["package.json"] == Blob(NccManifest)
  {
  }

  datatype Prepared = Prepared(filesAfterBuild: FileSet, filesWithoutLockfiles: FileSet, blob: Option<FileRef>)

  /**
   * Downloads the entry directory into `user/`, installs, runs `now-build`, installs ncc and
   * compiles the custom launcher, then prunes to production dependencies. With an auth token,
   * `.npmrc` is in place for the commands and removed before the directory is listed; the unlink
   * rejects if it is gone by then.
   */
  method DownloadInstallAndBundle(dir: WorkDir, files: FileSet, entrypoint: string,
                                  npmAuthToken: Option<string>, utils: Utils, tools: Tools)
    returns (r: Result<Prepared, Error>)
    modifies dir
    ensures var staged := StagedFor(old(dir.user), dir.UserPath(), files, entrypoint, npmAuthToken, utils, tools);
      && dir.log == old(dir.log) + CommandLog(dir.UserPath(), dir.NccPath(), staged, old(dir.ncc), tools)
      && dir.user == Finished(staged, npmAuthToken, tools)
      && dir.ncc == NccInstalled(tools, old(dir.ncc))
      && (r.Success? <==> !HasToken(npmAuthToken) || Npmrc in Pruned(tools, staged))
    ensures r.Failure? ==> r.error == NpmrcMissing
    ensures r.Success? ==>
      && r.value.filesAfterBuild == Relocated(dir.UserPath(), dir.user)
      && r.value.filesWithoutLockfiles == FilesWithoutLockfiles(utils, files, Dirname(entrypoint))
      && r.value.blob == BundledLauncher(tools, Downloaded(dir.UserPath(), utils, files, entrypoint))
    ensures HasToken(npmAuthToken) ==> Npmrc !in dir.user
  {
    var entryDirectory := Dirname(entrypoint);
    var filesWithoutLockfiles := FilesWithoutLockfiles(utils, files, entryDirectory);
    var downloadedFiles := utils.excludeStaticDirectory(filesWithoutLockfiles);
    var downloaded := StageUser(dir, downloadedFiles, npmAuthToken, utils, tools);
    InstallAndBuild(dir, tools);
    var blob := BundledLauncher(tools, downloaded);
    if HasToken(npmAuthToken) {
      var ok := dir.UnlinkUser(Npmrc);
      if !ok {
        return Failure(NpmrcMissing);
      }
    }
    var filesAfterBuild := Relocated(dir.UserPath(), dir.user);
    r := Success(Prepared(filesAfterBuild, filesWithoutLockfiles, blob));
  }

  // ---------------------------------------------------------------------------------------------
  // The files every page's Lambda shares

  /** `if (files[path])`: an entry that is present and not `undefined`. */
  predicate Truthy(fs: FileSet, path: string) {
    path in fs && fs[path] != Undefined
  }

  // Every file below node_modules except those whose path starts with node_modules/.cache.
  function NodeModules(afterBuild: FileSet): FileSet {
    ExcludeFiles(GlobTree(afterBuild, "node_modules"), (file: string) => StartsWith(file, "node_modules/.cache"))
  }

  // The files directly inside .next and directly inside .next/server.
  function DotNextFiles(afterBuild: FileSet): FileSet {
    GlobChildren(afterBuild, ".next") + GlobChildren(afterBuild, ".next/server")
  }

  /** `{ ...nodeModules, ...nextFiles, 'now__bridge.js': ... }`. */
  function Spread(afterBuild: FileSet, bridgePath: string): FileSet {
    NodeModules(afterBuild) + DotNextFiles(afterBuild) + map[BridgeKey := FsRef(bridgePath)]
  }

  function NextFiles(afterBuild: FileSet, blob: Option<FileRef>, bridgePath: string): FileSet {
    var spread := Spread(afterBuild, bridgePath);
    var withConfig := if Truthy(afterBuild, NextConfig) then spread[NextConfig := afterBuild[NextConfig]] else spread;
    if Truthy(afterBuild, CustomLauncher) && blob.Some? then withConfig[CustomLauncher := blob.value] else withConfig
  }

  /** Spreads the globbed files and the bridge, then adds the optional config and custom launcher. */
  method CollectNextFiles(afterBuild: FileSet, blob: Option<FileRef>, bridgePath: string) returns (nextFiles: FileSet)
    ensures nextFiles == NextFiles(afterBuild, blob, bridgePath)
  {
    nextFiles := NodeModules(afterBuild) + DotNextFiles(afterBuild) + map[BridgeKey := FsRef(bridgePath)];
    if Truthy(afterBuild, NextConfig) {
      nextFiles := nextFiles[NextConfig := afterBuild[NextConfig]];
    }
    if Truthy(afterBuild, CustomLauncher) && blob.Some? {
      nextFiles := nextFiles[CustomLauncher := blob.value];
    }
  }

  /** The dependency files shipped are exactly those outside `node_modules/.cache`. */
  lemma NodeModulesContents(afterBuild: FileSet)
    ensures forall k :: k in NodeModules(afterBuild) <==>
      k in afterBuild && StartsWith(k, "node_modules/") && !StartsWith(k, "node_modules/.cache")
    ensures forall k :: k in NodeModules(afterBuild) ==> NodeModules(afterBuild)[k] == afterBuild[k]
  {
  }

  /**
   * The `.next` files shipped are exactly the build's files directly inside `.next` and directly
   * inside `.next/server`, with their contents; all lie under `.next/`, so none is a cache file.
   */
  lemma DotNextFilesContents(afterBuild: FileSet)
    ensures forall k :: k in DotNextFiles(afterBuild) <==>
      k in afterBuild && (ChildOf(k, ".next") || ChildOf(k, ".next/server"))
    ensures forall k :: k in DotNextFiles(afterBuild) ==>
      DotNextFiles(afterBuild)[k] == afterBuild[k] && StartsWith(k, ".next/")
      && !StartsWith(k, "node_modules/.cache")
  {
    GlobChildrenWithin(afterBuild, ".next");
    GlobChildrenWithin(afterBuild, ".next/server");
    assert ".next" + "/" == ".next/";
    assert ".next/server" + "/" == ".next/server/";
    assert StartsWith(".next/server/", ".next/");
    forall k | StartsWith(k, ".next/server/") ensures StartsWith(k, ".next/") {
      StartsWithTransitive(k, ".next/server/", ".next/");
    }
    forall k | StartsWith(k, ".next/") ensures !StartsWith(k, "node_modules/.cache") {
      DiffersAt(k, "node_modules/.cache", 0);
    }
  }

  lemma NextFilesOverSpread(afterBuild: FileSet, blob: Option<FileRef>, bridgePath: string)
    ensures var nf, spread := NextFiles(afterBuild, blob, bridgePath), Spread(afterBuild, bridgePath);
      && (forall k :: k in nf <==>
            (|| k in spread
             || (k == NextConfig && Truthy(afterBuild, NextConfig))
             || (k == CustomLauncher && Truthy(afterBuild, CustomLauncher) && blob.Some?)))
      && (forall k :: k in nf && k != NextConfig && k != CustomLauncher ==> nf[k] == spread[k])
      && (Truthy(afterBuild, NextConfig) ==> nf[NextConfig] == afterBuild[NextConfig])
      && (Truthy(afterBuild, CustomLauncher) && blob.Some? ==> nf[CustomLauncher] == blob.value)
  {
    DiffersAt(NextConfig, CustomLauncher, 1);
  }

  /** The spread part of the shared files: the bridge, dependency files outside the cache, `.next` files. */
  lemma SpreadSources(afterBuild: FileSet, bridgePath: string)
    ensures var spread := Spread(afterBuild, bridgePath);
      forall k :: k in spread ==>
        && !StartsWith(k, "node_modules/.cache")
        && (|| (k == BridgeKey && spread[k] == FsRef(bridgePath))
            || (k in afterBuild && spread[k] == afterBuild[k]
                && (StartsWith(k, "node_modules/") || StartsWith(k, ".next/"))))
  {
    NodeModulesContents(afterBuild);
    DotNextFilesContents(afterBuild);
    DiffersAt(BridgeKey, "node_modules/.cache", 2);
  }

  /** Neither the config nor the custom launcher is among the spread files. */
  lemma SpreadOmits(afterBuild: FileSet, bridgePath: string)
    ensures NextConfig !in Spread(afterBuild, bridgePath)
    ensures CustomLauncher !in Spread(afterBuild, bridgePath)
  {
    SpreadSources(afterBuild, bridgePath);
    DiffersAt(NextConfig, "node_modules/", 1);
    DiffersAt(NextConfig, ".next/", 0);
    DiffersAt(NextConfig, BridgeKey, 1);
    DiffersAt(CustomLauncher, "node_modules/", 2);
    DiffersAt(CustomLauncher, ".next/", 0);
    DiffersAt(CustomLauncher, BridgeKey, 3);
  }

  /** Where each shared file comes from; none lies under `node_modules/.cache`. */
  lemma NextFilesSources(afterBuild: FileSet, blob: Option<FileRef>, bridgePath: string)
    ensures var nf := NextFiles(afterBuild, blob, bridgePath);
      forall k :: k in nf ==>
        && !StartsWith(k, "node_modules/.cache")
        && (|| (k == BridgeKey && nf[k] == FsRef(bridgePath))
            || (k == CustomLauncher && blob.Some? && nf[k] == blob.value)
            || (k in afterBuild && nf[k] == afterBuild[k]
                && (k == NextConfig || StartsWith(k, "node_modules/") || StartsWith(k, ".next/"))))
  {
    NextFilesOverSpread(afterBuild, blob, bridgePath);
    SpreadSources(afterBuild, bridgePath);
    DiffersAt(NextConfig, "node_modules/.cache", 1);
    DiffersAt(CustomLauncher, "node_modules/.cache", 2);
    DiffersAt(NextConfig, CustomLauncher, 1);
  }

  /**
   * Every dependency file outside the cache and every file directly inside `.next` or
   * `.next/server` is shared; the bridge is always there, the config exactly when the build has
   * one, the compiled custom launcher exactly when both it and its source exist.
   */
  lemma NextFilesIncludes(afterBuild: FileSet, blob: Option<FileRef>, bridgePath: string)
    ensures var nf := NextFiles(afterBuild, blob, bridgePath);
      && (forall k :: k in afterBuild && StartsWith(k, "node_modules/") && !StartsWith(k, "node_modules/.cache")
            ==> k in nf)
      && (forall k :: k in afterBuild && (ChildOf(k, ".next") || ChildOf(k, ".next/server")) ==> k in nf)
      && (BridgeKey in nf && nf[BridgeKey] == FsRef(bridgePath))
      && (NextConfig in nf <==> Truthy(afterBuild, NextConfig))
      && (CustomLauncher in nf <==> Truthy(afterBuild, CustomLauncher) && blob.Some?)
      && (CustomLauncher in nf ==> nf[CustomLauncher] == blob.value)
  {
    NodeModulesContents(afterBuild);
    NextFilesOverSpread(afterBuild, blob, bridgePath);
    SpreadOmits(afterBuild, bridgePath);
    DiffersAt(BridgeKey, NextConfig, 1);
    DiffersAt(BridgeKey, CustomLauncher, 3);
  }

  // ---------------------------------------------------------------------------------------------
  // Pages and their Lambdas

  function PagesDir(buildId: string): string {
    ".next/server/static/" + buildId + "/pages"
  }

  /** `.next/server/static/${buildId}/pages/${page}`. */
  function PagePath(buildId: string, page: string): string {
    PagesDir(buildId) + "/" + page
  }

  // The compiled pages, relative to the pages directory: glob of every .js file below it.
  function Pages(afterBuild: FileSet, buildId: string): (pages: set<string>)
    ensures forall p :: p in pages <==> PagePath(buildId, p) in afterBuild && EndsWith(p, ".js")
  {
    set p | p in GlobRelative(afterBuild, PagesDir(buildId)) && EndsWith(p, ".js")
  }

  /** `page.replace(/\.js$/, '')`. */
  function Pathname(page: string): string {
    if EndsWith(page, ".js") then page[..|page| - 3] else page
  }

  /** `/${pathname.replace(/(^|\/)index$/, '')}`. */
  function RequestPath(pathname: string): string {
    "/" + (if pathname == "index" then ""
           else if EndsWith(pathname, "/index") then pathname[..|pathname| - 6]
           else pathname)
  }

  /** `path.join(entryDirectory, pathname)`: the key of a page's Lambda. */
  function LambdaKey(entryDirectory: string, page: string): string {
    Join(entryDirectory, Pathname(page))
  }

  /** launcher.js with the page's request path in place of the first `PATHNAME_PLACEHOLDER`. */
  function PageLauncher(template: string, page: string): string {
    ReplaceFirst(template, Placeholder, RequestPath(Pathname(page)))
  }

  function PageFileKeys(buildId: string, page: string): set<string> {
    {PagePath(buildId, "_document.js"), PagePath(buildId, "_app.js"), PagePath(buildId, "_error.js"),
     PagePath(buildId, page)}
  }

  /** The `pageFiles` literal: the three reserved pages and this one, looked up in `filesAfterBuild`. */
  function PageFiles(afterBuild: FileSet, buildId: string, page: string): FileSet {
    var document := PagePath(buildId, "_document.js");
    var app := PagePath(buildId, "_app.js");
    var error := PagePath(buildId, "_error.js");
    var own := PagePath(buildId, page);
    map[document := Lookup(afterBuild, document), app := Lookup(afterBuild, app),
        error := Lookup(afterBuild, error), own := Lookup(afterBuild, own)]
  }

  /** What every page's Lambda is built from. */
  datatype Shared = Shared(entryDirectory: string, buildId: string, nextFiles: FileSet,
                           afterBuild: FileSet, launcherTemplate: string)

  function PageLambda(sh: Shared, page: string): Lambda {
    Lambda(sh.nextFiles + PageFiles(sh.afterBuild, sh.buildId, page)
           + map[LauncherKey := Blob(PageLauncher(sh.launcherTemplate, page))],
           Handler, Runtime)
  }

  /** Every page ends in ".js", so different pages get different Lambda keys. */
  lemma LambdaKeyInjective(entryDirectory: string, p: string, q: string)
    requires EndsWith(p, ".js") && EndsWith(q, ".js")
    requires LambdaKey(entryDirectory, p) == LambdaKey(entryDirectory, q)
    ensures p == q
  {
    JoinInjective(entryDirectory, Pathname(p), Pathname(q));
    assert p == Pathname(p) + ".js";
    assert q == Pathname(q) + ".js";
  }

  function KeyFor(entryDirectory: string): string -> string {
    page => LambdaKey(entryDirectory, page)
  }

  function LambdaFor(sh: Shared): string -> Lambda {
    page => PageLambda(sh, page)
  }

  lemma KeyForInjective(entryDirectory: string, pages: set<string>)
    requires forall p :: p in pages ==> EndsWith(p, ".js")
    ensures Injective(pages, KeyFor(entryDirectory))
  {
    forall p, q | p in pages && q in pages && KeyFor(entryDirectory)(p) == KeyFor(entryDirectory)(q)
      ensures p == q
    {
      LambdaKeyInjective(entryDirectory, p, q);
    }
  }

  /** The `lambdas` object once the Lambdas of `pages` are all in it. */
  function LambdasOf(sh: Shared, pages: set<string>): map<string, Lambda>
    requires forall p :: p in pages ==> EndsWith(p, ".js")
  {
    KeyForInjective(sh.entryDirectory, pages - ReservedPages);
    KeyedBy(pages - ReservedPages, KeyFor(sh.entryDirectory), LambdaFor(sh))
  }

  /** Handling one more page adds its Lambda, or nothing for a reserved page. */
  lemma LambdasOfAdd(sh: Shared, done: set<string>, page: string)
    requires forall p :: p in done ==> EndsWith(p, ".js")
    requires EndsWith(page, ".js") && page !in done
    ensures page in ReservedPages ==> LambdasOf(sh, done + {page}) == LambdasOf(sh, done)
    ensures page !in ReservedPages ==>
      && LambdaKey(sh.entryDirectory, page) !in LambdasOf(sh, done)
      && LambdasOf(sh, done + {page}) == LambdasOf(sh, done)[LambdaKey(sh.entryDirectory, page) := PageLambda(sh, page)]
  {
    if page in ReservedPages {
      assert (done + {page}) - ReservedPages == done - ReservedPages;
    } else {
      assert (done + {page}) - ReservedPages == (done - ReservedPages) + {page};
      KeyForInjective(sh.entryDirectory, (done - ReservedPages) + {page});
      KeyedByAdd(done - ReservedPages, KeyFor(sh.entryDirectory), LambdaFor(sh), page);
    }
  }

  /** Whether one page gets a Lambda, and which. */
  lemma LambdaOfPage(sh: Shared, pages: set<string>, p: string)
    requires forall q :: q in pages ==> EndsWith(q, ".js")
    requires p in pages
    ensures LambdaKey(sh.entryDirectory, p) in LambdasOf(sh, pages) <==> p !in ReservedPages
    ensures p !in ReservedPages ==> LambdasOf(sh, pages)[LambdaKey(sh.entryDirectory, p)] == PageLambda(sh, p)
  {
    KeyForInjective(sh.entryDirectory, (pages - ReservedPages) + {p});
    KeyedByHas(pages - ReservedPages, KeyFor(sh.entryDirectory), LambdaFor(sh), p);
  }

  /**
   * A page has a Lambda exactly when it is not one of the three reserved top-level pages; that
   * Lambda is the page's own, and every Lambda belongs to some page.
   */
  lemma ReservedPagesHaveNoLambda(sh: Shared, pages: set<string>)
    requires forall p :: p in pages ==> EndsWith(p, ".js")
    ensures forall p :: p in pages ==>
      (LambdaKey(sh.entryDirectory, p) in LambdasOf(sh, pages) <==> p !in ReservedPages)
    ensures forall p :: p in pages && p !in ReservedPages ==>
      LambdasOf(sh, pages)[LambdaKey(sh.entryDirectory, p)] == PageLambda(sh, p)
    ensures forall k :: k in LambdasOf(sh, pages) ==>
      exists p :: p in pages && p !in ReservedPages && k == LambdaKey(sh.entryDirectory, p)
  {
    forall p | p in pages
      ensures LambdaKey(sh.entryDirectory, p) in LambdasOf(sh, pages) <==> p !in ReservedPages
      ensures p !in ReservedPages ==> LambdasOf(sh, pages)[LambdaKey(sh.entryDirectory, p)] == PageLambda(sh, p)
    {
      LambdaOfPage(sh, pages, p);
    }
  }

  /** One Lambda per page that is not reserved, and no more. */
  lemma LambdaCount(sh: Shared, pages: set<string>)
    requires forall p :: p in pages ==> EndsWith(p, ".js")
    ensures |LambdasOf(sh, pages)| == |pages - ReservedPages|
  {
    KeyForInjective(sh.entryDirectory, pages - ReservedPages);
    KeyedByCount(pages - ReservedPages, KeyFor(sh.entryDirectory), LambdaFor(sh));
  }

  lemma PagePathInjective(buildId: string, p: string, q: string)
    requires PagePath(buildId, p) == PagePath(buildId, q)
    ensures p == q
  {
    PrefixCancels(PagesDir(buildId) + "/", p, q);
  }

  lemma FourDistinct<T>(a: T, b: T, c: T, d: T)
    requires a != b && a != c && a != d && b != c && b != d && c != d
    ensures |{a, b, c, d}| == 4
  {
    assert {a, b, c, d} == {a, b, c} + {d};
    assert {a, b, c} == {a, b} + {c};
  }

  /** The four page files of a page that is not reserved are four different paths, none of them the launcher's. */
  lemma PageFileKeysDistinct(buildId: string, page: string)
    requires page !in ReservedPages
    ensures |PageFileKeys(buildId, page)| == 4
    ensures LauncherKey !in PageFileKeys(buildId, page)
  {
    var b := buildId;
    var doc, app, err, own := PagePath(b, "_document.js"), PagePath(b, "_app.js"), PagePath(b, "_error.js"), PagePath(b, page);
    assert LauncherKey[0] == 'n';
    assert doc[0] == '.' && app[0] == '.' && err[0] == '.' && own[0] == '.';
    if own == doc { PagePathInjective(b, page, "_document.js"); }
    if own == app { PagePathInjective(b, page, "_app.js"); }
    if own == err { PagePathInjective(b, page, "_error.js"); }
    if doc == app { PagePathInjective(b, "_document.js", "_app.js"); }
    if doc == err { PagePathInjective(b, "_document.js", "_error.js"); }
    if app == err { PagePathInjective(b, "_app.js", "_error.js"); }
    FourDistinct(doc, app, err, own);
  }

  /**
   * A page's Lambda holds the shared files, the four page files and the generated launcher, and
   * nothing else; the page files override shared ones and the launcher overrides both. The five
   * added paths are all different, the handler and runtime are fixed.
   */
  lemma PageLambdaFiles(sh: Shared, page: string)
    requires page !in ReservedPages
    ensures var l := PageLambda(sh, page);
      && l.handler == "now__launcher.launcher" && l.runtime == "nodejs8.10"
      && l.files.Keys == sh.nextFiles.Keys + PageFileKeys(sh.buildId, page) + {LauncherKey}
      && l.files[LauncherKey] == Blob(PageLauncher(sh.launcherTemplate, page))
      && (forall k :: k in PageFileKeys(sh.buildId, page) ==> l.files[k] == Lookup(sh.afterBuild, k))
      && (forall k :: k in sh.nextFiles && k !in PageFileKeys(sh.buildId, page) && k != LauncherKey
            ==> l.files[k] == sh.nextFiles[k])
      && LauncherKey !in PageFileKeys(sh.buildId, page)
      && |PageFileKeys(sh.buildId, page)| == 4
  {
    PageFileKeysDistinct(sh.buildId, page);
    PageLambdaOverlay(sh, page);
  }

  /** The Lambda's files as the three layers give them. */
  lemma PageLambdaOverlay(sh: Shared, page: string)
    requires LauncherKey !in PageFileKeys(sh.buildId, page)
    ensures var l := PageLambda(sh, page);
      && l.files.Keys == sh.nextFiles.Keys + PageFileKeys(sh.buildId, page) + {LauncherKey}
      && l.files[LauncherKey] == Blob(PageLauncher(sh.launcherTemplate, page))
      && (forall k :: k in PageFileKeys(sh.buildId, page) ==> l.files[k] == Lookup(sh.afterBuild, k))
      && (forall k :: k in sh.nextFiles && k !in PageFileKeys(sh.buildId, page) && k != LauncherKey
            ==> l.files[k] == sh.nextFiles[k])
  {
    var pf := PageFiles(sh.afterBuild, sh.buildId, page);
    var launcher := Blob(PageLauncher(sh.launcherTemplate, page));
    PageFilesLookUp(sh.afterBuild, sh.buildId, page);
    Overlay(sh.nextFiles, pf, LauncherKey, launcher);
  }

  lemma PageFilesLookUp(afterBuild: FileSet, buildId: string, page: string)
    ensures PageFiles(afterBuild, buildId, page).Keys == PageFileKeys(buildId, page)
    ensures forall k :: k in PageFiles(afterBuild, buildId, page) ==>
      PageFiles(afterBuild, buildId, page)[k] == Lookup(afterBuild, k)
  {
  }

  /** Stripping the extension of `<stem>.js` gives back the stem. */
  lemma PathnameOfStem(stem: string)
    ensures Pathname(stem + ".js") == stem
  {
    var page := stem + ".js";
    assert page[|page| - 3..] == ".js";
    assert page[..|page| - 3] == stem;
  }

  /** `index.js` answers `/`, and `<dir>/index.js` answers `/<dir>`. */
  lemma IndexPagesServeTheirDirectory(dir: string)
    ensures RequestPath(Pathname("index.js")) == "/"
    ensures RequestPath(Pathname(dir + "/index.js")) == "/" + dir
  {
    PathnameOfStem("index");
    assert "index" + ".js" == "index.js";
    var stem := dir + "/index";
    PathnameOfStem(stem);
    assert stem + ".js" == dir + "/index.js";
    assert stem[|stem| - 6..] == "/index";
    assert stem[..|stem| - 6] == dir;
  }

  /** Any other page answers at its own path without the extension. */
  lemma OtherPagesServeTheirPath(stem: string)
    requires stem != "index" && !EndsWith(stem, "/index")
    ensures RequestPath(Pathname(stem + ".js")) == "/" + stem
  {
    PathnameOfStem(stem);
  }

  // ---------------------------------------------------------------------------------------------
  // Static files

  /** The `reduce` as written: the files are spread into the accumulator one key after another. */
  function RemapFold(keys: seq<string>, fs: FileSet, prefix: string, entryDirectory: string): FileSet
    requires forall i :: 0 <= i < |keys| ==> keys[i] in fs
  {
    if keys == [] then map[]
    else
      var last := keys[|keys| - 1];
      RemapFold(keys[..|keys| - 1], fs, prefix, entryDirectory)[Join(entryDirectory, prefix + last) := fs[last]]
  }

  /** The same entries under their own keys, spread one after another. */
  function CopyFold(keys: seq<string>, fs: FileSet): FileSet
    requires forall i :: 0 <= i < |keys| ==> keys[i] in fs
  {
    if keys == [] then map[]
    else
      var last := keys[|keys| - 1];
      CopyFold(keys[..|keys| - 1], fs)[last := fs[last]]
  }

  /** Spreading under remapped keys is remapping what was spread under the old ones. */
  lemma {:induction false} RemapFoldIsRemapOfCopy(keys: seq<string>, fs: FileSet, prefix: string, entryDirectory: string)
    requires forall i :: 0 <= i < |keys| ==> keys[i] in fs
    ensures RemapFold(keys, fs, prefix, entryDirectory) == Remap(CopyFold(keys, fs), prefix, entryDirectory)
  {
    if keys != [] {
      var n := |keys| - 1;
      RemapFoldIsRemapOfCopy(keys[..n], fs, prefix, entryDirectory);
      RemapAdd(CopyFold(keys[..n], fs), keys[n], fs[keys[n]], prefix, entryDirectory);
    }
  }

  /** Spreading the listed entries one by one keeps exactly the listed entries. */
  lemma {:induction false} CopyFoldIsRestrict(keys: seq<string>, fs: FileSet)
    requires forall i :: 0 <= i < |keys| ==> keys[i] in fs
    ensures CopyFold(keys, fs) == Restrict(fs, set k | k in keys)
  {
    if keys == [] {
      assert Restrict(fs, set k | k in keys) == map[];
    } else {
      var n := |keys| - 1;
      var init, last := keys[..n], keys[n];
      CopyFoldIsRestrict(init, fs);
      assert (set k | k in keys) == (set k | k in init) + {last} by {
        assert keys == init + [last];
      }
      RestrictInsert(fs, (set k | k in init), last);
    }
  }

  /** Whatever order `Object.keys` lists the files in, the `reduce` gives `Remap`. */
  lemma RemapFoldIsRemap(keys: seq<string>, fs: FileSet, prefix: string, entryDirectory: string)
    requires forall k :: k in fs <==> k in keys
    ensures RemapFold(keys, fs, prefix, entryDirectory) == Remap(fs, prefix, entryDirectory)
  {
    RemapFoldIsRemapOfCopy(keys, fs, prefix, entryDirectory);
    CopyFoldIsRestrict(keys, fs);
    assert Restrict(fs, set k | k in keys) == fs;
  }

  /** `.next/static` files, under `<entryDirectory>/_next/static/`. */
  function StaticFiles(afterBuild: FileSet, entryDirectory: string): FileSet {
    Remap(GlobRelative(afterBuild, ".next/static"), "_next/static/", entryDirectory)
  }

  /** The project's static directory, under the entry directory. */
  function StaticDirectoryFiles(utils: Utils, filesWithoutLockfiles: FileSet, entryDirectory: string): FileSet {
    Remap(utils.onlyStaticDirectory(filesWithoutLockfiles), "", entryDirectory)
  }

  /** `{ ...lambdas, ...staticFiles, ...staticDirectoryFiles }`: later spreads win. */
  function Merge(lambdas: map<string, Lambda>, staticFiles: FileSet, staticDirectoryFiles: FileSet)
    : (out: map<string, Output>)
    ensures forall k :: k in out <==> k in lambdas || k in staticFiles || k in staticDirectoryFiles
    ensures forall k :: k in staticDirectoryFiles ==> out[k] == FileOutput(staticDirectoryFiles[k])
    ensures forall k :: k in staticFiles && k !in staticDirectoryFiles ==> out[k] == FileOutput(staticFiles[k])
    ensures forall k :: k in lambdas && k !in staticFiles && k !in staticDirectoryFiles ==>
      out[k] == LambdaOutput(lambdas[k])
    ensures forall k :: k in out && out[k].LambdaOutput? ==> k in lambdas && out[k].lambda == lambdas[k]
  {
    (map k | k in lambdas :: LambdaOutput(lambdas[k]))
    + (map k | k in staticFiles :: FileOutput(staticFiles[k]))
    + (map k | k in staticDirectoryFiles :: FileOutput(staticDirectoryFiles[k]))
  }

  // ---------------------------------------------------------------------------------------------
  // build

  /** What `build` resolves to once the user directory has been built. */
  function Assembly(afterBuild: FileSet, filesWithoutLockfiles: FileSet, blob: Option<FileRef>,
                    entrypoint: string, env: Env, utils: Utils, tools: Tools): Result<map<string, Output>, Error>
  {
    if BuildIdPath !in afterBuild then Failure(MissingBuildId)
    else
      var entryDirectory := Dirname(entrypoint);
      var buildId := tools.readText(afterBuild[BuildIdPath]);
      var sh := Shared(entryDirectory, buildId, NextFiles(afterBuild, blob, env.bridgePath), afterBuild,
                       env.launcherTemplate);
      Success(Merge(LambdasOf(sh, Pages(afterBuild, buildId)),
                    StaticFiles(afterBuild, entryDirectory),
                    StaticDirectoryFiles(utils, filesWithoutLockfiles, entryDirectory)))
  }

  /**
   * The `Promise.all` over the pages: each page that is not reserved adds its Lambda, in
   * whichever order the pages complete.
   */
  method CreateLambdas(sh: Shared, pages: set<string>) returns (lambdas: map<string, Lambda>)
    requires forall p :: p in pages ==> EndsWith(p, ".js")
    ensures lambdas == LambdasOf(sh, pages)
  {
    lambdas := map[];
    var remaining := pages;
    while remaining != {}
      invariant remaining <= pages
      invariant lambdas == LambdasOf(sh, pages - remaining)
      decreases remaining
    {
      var page :| page in remaining;
      LambdasOfAdd(sh, pages - remaining, page);
      assert (pages - remaining) + {page} == pages - (remaining - {page});
      remaining := remaining - {page};
      if page !in ReservedPages {
        var pathname := Pathname(page);
        var launcher := ReplaceFirst(sh.launcherTemplate, Placeholder, RequestPath(pathname));
        var files := sh.nextFiles + PageFiles(sh.afterBuild, sh.buildId, page) + map[LauncherKey := Blob(launcher)];
        lambdas := lambdas[Join(sh.entryDirectory, pathname) := Lambda(files, Handler, Runtime)];
      }
    }
    assert pages - remaining == pages;
  }

  /**
   * Everything `build` does after `downloadInstallAndBundle`: read BUILD_ID, collect the shared
   * files, create a Lambda per page (in any order, as `Promise.all` may finish them), then remap
   * the static files and merge.
   */
  method Assemble(afterBuild: FileSet, filesWithoutLockfiles: FileSet, blob: Option<FileRef>,
                  entrypoint: string, env: Env, utils: Utils, tools: Tools)
    returns (r: Result<map<string, Output>, Error>)
    ensures r == Assembly(afterBuild, filesWithoutLockfiles, blob, entrypoint, env, utils, tools)
  {
    var entryDirectory := Dirname(entrypoint);
    if BuildIdPath !in afterBuild {
      return Failure(MissingBuildId);
    }
    var buildId := tools.readText(afterBuild[BuildIdPath]);
    var nextFiles := CollectNextFiles(afterBuild, blob, env.bridgePath);
    var pages := Pages(afterBuild, buildId);
    var lambdas := CreateLambdas(Shared(entryDirectory, buildId, nextFiles, afterBuild, env.launcherTemplate), pages);
    var staticFiles := StaticFiles(afterBuild, entryDirectory);
    var staticDirectoryFiles := StaticDirectoryFiles(utils, filesWithoutLockfiles, entryDirectory);
    r := Success(Merge(lambdas, staticFiles, staticDirectoryFiles));
  }

  /** A build fails with `Missing BUILD_ID` exactly when `.next/BUILD_ID` was not produced. */
  lemma MissingBuildIdFails(afterBuild: FileSet, filesWithoutLockfiles: FileSet, blob: Option<FileRef>,
                            entrypoint: string, env: Env, utils: Utils, tools: Tools)
    ensures var r := Assembly(afterBuild, filesWithoutLockfiles, blob, entrypoint, env, utils, tools);
      && (r.Failure? <==> BuildIdPath !in afterBuild)
      && (r.Failure? ==> r.error == MissingBuildId)
  {
  }

  /** The shared files never include `.npmrc`. */
  lemma NextFilesNoNpmrc(afterBuild: FileSet, blob: Option<FileRef>, bridgePath: string)
    ensures Npmrc !in NextFiles(afterBuild, blob, bridgePath)
  {
    NextFilesSources(afterBuild, blob, bridgePath);
    DiffersAt(Npmrc, "node_modules/", 0);
    DiffersAt(Npmrc, ".next/", 2);
    DiffersAt(Npmrc, BridgeKey, 0);
    DiffersAt(Npmrc, NextConfig, 0);
    DiffersAt(Npmrc, CustomLauncher, 0);
  }

  /** A page's Lambda adds the four page files and the launcher, none of them `.npmrc`. */
  lemma PageLambdaNoNpmrc(sh: Shared, page: string)
    requires Npmrc !in sh.nextFiles
    ensures Npmrc !in PageLambda(sh, page).files
  {
    PageFilesLookUp(sh.afterBuild, sh.buildId, page);
    DiffersAt(Npmrc, LauncherKey, 0);
    forall q | q in PageFileKeys(sh.buildId, page) ensures q != Npmrc {
      assert q[2] == 'e';
    }
    assert Npmrc[2] == 'p';
  }

  lemma LambdasNoNpmrc(sh: Shared, pages: set<string>)
    requires forall p :: p in pages ==> EndsWith(p, ".js")
    requires Npmrc !in sh.nextFiles
    ensures forall k :: k in LambdasOf(sh, pages) ==> Npmrc !in LambdasOf(sh, pages)[k].files
  {
    forall k | k in LambdasOf(sh, pages) ensures Npmrc !in LambdasOf(sh, pages)[k].files {
      var p :| p in pages - ReservedPages && k == KeyFor(sh.entryDirectory)(p);
      LambdaOfPage(sh, pages, p);
      PageLambdaNoNpmrc(sh, p);
    }
  }

  /** No Lambda that `build` outputs carries `.npmrc`, whatever the user directory holds. */
  lemma NoCredentialsInLambdas(afterBuild: FileSet, filesWithoutLockfiles: FileSet, blob: Option<FileRef>,
                               entrypoint: string, env: Env, utils: Utils, tools: Tools)
    requires BuildIdPath in afterBuild
    ensures var out := Assembly(afterBuild, filesWithoutLockfiles, blob, entrypoint, env, utils, tools).value;
      forall k :: k in out && out[k].LambdaOutput? ==> Npmrc !in out[k].lambda.files
  {
    var d := Dirname(entrypoint);
    var buildId := tools.readText(afterBuild[BuildIdPath]);
    var sh := Shared(d, buildId, NextFiles(afterBuild, blob, env.bridgePath), afterBuild, env.launcherTemplate);
    var pages := Pages(afterBuild, buildId);
    var lambdas := LambdasOf(sh, pages);
    var out := Merge(lambdas, StaticFiles(afterBuild, d), StaticDirectoryFiles(utils, filesWithoutLockfiles, d));
    assert out == Assembly(afterBuild, filesWithoutLockfiles, blob, entrypoint, env, utils, tools).value;
    NextFilesNoNpmrc(afterBuild, blob, env.bridgePath);
    LambdasNoNpmrc(sh, pages);
  }

  /**
   * `build`: validate the entrypoint, download, install and build, then assemble what the user
   * directory holds afterwards.
   */
  method Build(dir: WorkDir, files: FileSet, entrypoint: string, npmAuthToken: Option<string>,
               env: Env, utils: Utils, tools: Tools)
    returns (r: Result<map<string, Output>, Error>)
    modifies dir
    ensures !utils.validateEntrypoint(entrypoint) ==>
      r == Failure(InvalidEntrypoint(entrypoint))
      && dir.user == old(dir.user) && dir.ncc == old(dir.ncc) && dir.log == old(dir.log)
    ensures utils.validateEntrypoint(entrypoint) ==>
      var staged := StagedFor(old(dir.user), dir.UserPath(), files, entrypoint, npmAuthToken, utils, tools);
      && dir.log == old(dir.log) + CommandLog(dir.UserPath(), dir.NccPath(), staged, old(dir.ncc), tools)
      && dir.user == Finished(staged, npmAuthToken, tools)
      && dir.ncc == NccInstalled(tools, old(dir.ncc))
      && (HasToken(npmAuthToken) && Npmrc !in Pruned(tools, staged) ==> r == Failure(NpmrcMissing))
      && (!HasToken(npmAuthToken) || Npmrc in Pruned(tools, staged) ==>
            r == Assembly(Relocated(dir.UserPath(), dir.user), FilesWithoutLockfiles(utils, files, Dirname(entrypoint)),
                          BundledLauncher(tools, Downloaded(dir.UserPath(), utils, files, entrypoint)),
                          entrypoint, env, utils, tools))
    ensures r.Success? && HasToken(npmAuthToken) ==> Npmrc !in dir.user
  {
    if !utils.validateEntrypoint(entrypoint) {
      return Failure(InvalidEntrypoint(entrypoint));
    }
    var prepared := DownloadInstallAndBundle(dir, files, entrypoint, npmAuthToken, utils, tools);
    if prepared.Failure? {
      return Failure(prepared.error);
    }
    r := Assemble(prepared.value.filesAfterBuild, prepared.value.filesWithoutLockfiles, prepared.value.blob,
                  entrypoint, env, utils, tools);
  }

  // ---------------------------------------------------------------------------------------------
  // prepareCache

  /** The eight globs spread together, over the listing of the cache directory. */
  function CacheFiles(listing: FileSet): FileSet {
    GlobTree(listing, "user/node_modules") + GlobFile(listing, "user/package-lock.json")
    + GlobFile(listing, "user/yarn.lock") + GlobTree(listing, "ncc/node_modules")
    + GlobFile(listing, "ncc/package-lock.json") + GlobFile(listing, "ncc/yarn.lock")
    + GlobFile(listing, "user/.next/records.json") + GlobFile(listing, "user/.next/server/records.json")
  }

  const CachedFiles: set<string> := {"user/package-lock.json", "user/yarn.lock", "ncc/package-lock.json",
                                     "ncc/yarn.lock", "user/.next/records.json", "user/.next/server/records.json"}

  /** The paths, relative to the cache directory, that the globs of `prepareCache` match. */
  predicate CachePath(k: string) {
    StartsWith(k, "user/node_modules/") || StartsWith(k, "ncc/node_modules/") || k in CachedFiles
  }

  /** Everything the globs collect is an entry of the listing, with its contents, at a cached path. */
  lemma CacheFilesSound(listing: FileSet)
    ensures Selected(CacheFiles(listing), listing, CachePath)
  {
    var trees := ["user/node_modules", "ncc/node_modules"];
    forall dir | dir in trees ensures Selected(GlobTree(listing, dir), listing, CachePath) {
      GlobTreeSelected(listing, dir, CachePath);
    }
    forall path | path in CachedFiles ensures Selected(GlobFile(listing, path), listing, CachePath) {
      GlobFileSelected(listing, path, CachePath);
    }
    var c := GlobTree(listing, "user/node_modules");
    SelectedUnion(c, GlobFile(listing, "user/package-lock.json"), listing, CachePath);
    c := c + GlobFile(listing, "user/package-lock.json");
    SelectedUnion(c, GlobFile(listing, "user/yarn.lock"), listing, CachePath);
    c := c + GlobFile(listing, "user/yarn.lock");
    SelectedUnion(c, GlobTree(listing, "ncc/node_modules"), listing, CachePath);
    c := c + GlobTree(listing, "ncc/node_modules");
    SelectedUnion(c, GlobFile(listing, "ncc/package-lock.json"), listing, CachePath);
    c := c + GlobFile(listing, "ncc/package-lock.json");
    SelectedUnion(c, GlobFile(listing, "ncc/yarn.lock"), listing, CachePath);
    c := c + GlobFile(listing, "ncc/yarn.lock");
    SelectedUnion(c, GlobFile(listing, "user/.next/records.json"), listing, CachePath);
    c := c + GlobFile(listing, "user/.next/records.json");
    SelectedUnion(c, GlobFile(listing, "user/.next/server/records.json"), listing, CachePath);
  }

  /** Every matching entry of the listing is collected. */
  lemma CacheFilesComplete(listing: FileSet)
    ensures forall k :: k in listing && CachePath(k) ==> k in CacheFiles(listing)
  {
  }

  /** The credentials file matches none of the cache globs. */
  lemma NpmrcNotCached()
    ensures !CachePath("user/.npmrc")
  {
    var npmrc := "user/.npmrc";
    DiffersAt(npmrc, "user/node_modules/", 5);
    DiffersAt(npmrc, "ncc/node_modules/", 0);
    DiffersAt(npmrc, "user/package-lock.json", 5);
    DiffersAt(npmrc, "user/yarn.lock", 5);
    DiffersAt(npmrc, "ncc/package-lock.json", 0);
    DiffersAt(npmrc, "ncc/yarn.lock", 0);
    DiffersAt(npmrc, "user/.next/records.json", 7);
    DiffersAt(npmrc, "user/.next/server/records.json", 7);
  }

  /**
   * The cache keeps the two dependency trees, the lock files and Next's build records, with their
   * contents; nothing else, and never the credentials file.
   */
  lemma CacheFilesContents(listing: FileSet)
    ensures var cache := CacheFiles(listing);
      && (forall k :: k in cache <==> k in listing && CachePath(k))
      && (forall k :: k in cache ==> cache[k] == listing[k])
      && "user/.npmrc" !in cache
  {
    CacheFilesSound(listing);
    CacheFilesComplete(listing);
    NpmrcNotCached();
  }

  /**
   * `prepareCache`: the build directory is removed, then the same download, install and build runs
   * in the cache directory and the globs collect what to keep.
   */
  method PrepareCache(work: WorkDir, cache: WorkDir, files: FileSet, entrypoint: string,
                      npmAuthToken: Option<string>, utils: Utils, tools: Tools)
    returns (r: Result<FileSet, Error>)
    modifies work, cache
    ensures work != cache ==> work.user == map[] && work.ncc == map[]
    ensures var before, nccBefore := if work == cache then map[] else old(cache.user), if work == cache then map[] else old(cache.ncc);
      var staged := StagedFor(before, cache.UserPath(), files, entrypoint, npmAuthToken, utils, tools);
      && cache.log == old(cache.log) + CommandLog(cache.UserPath(), cache.NccPath(), staged, nccBefore, tools)
      && cache.user == Finished(staged, npmAuthToken, tools)
      && cache.ncc == NccInstalled(tools, nccBefore)
      && (r.Success? <==> !HasToken(npmAuthToken) || Npmrc in Pruned(tools, staged))
    ensures r.Failure? ==> r.error == NpmrcMissing
    ensures r.Success? ==> r.value == CacheFiles(Relocated(cache.workPath, Listing(cache.user, cache.ncc)))
    ensures r.Success? ==> "user/.npmrc" !in r.value
  {
    work.Remove();
    var prepared := DownloadInstallAndBundle(cache, files, entrypoint, npmAuthToken, utils, tools);
    if prepared.Failure? {
      return Failure(prepared.error);
    }
    var listing := Relocated(cache.workPath, Listing(cache.user, cache.ncc));
    r := Success(CacheFiles(listing));
    CacheFilesContents(listing);
  }
}
