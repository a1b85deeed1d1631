/**
 * The scratch directory a builder works in: `<workPath>/user` holds the user's files and
 * `<workPath>/ncc` the bundler's own install. The external programs (npm, the `now-build`
 * script, the ncc bundler, file reads) are given as functions of what they can see, and every
 * command run is logged with the directory contents it ran against.
 */
module Workspace {
  import opened Paths
  import opened FileSets

  /** What the ncc bundler returns for one input file. */
  datatype Bundle = Bundle(code: string, assets: map<string, string>)

  datatype Tools = Tools(
    // `runNpmInstall(dir/sub, args)`: the directory's files afterwards
    npmInstall: (string, FileSet, seq<string>) -> FileSet,
    // `runPackageJsonScript(dir/sub, name)`: the directory's files afterwards
    runScript: (string, FileSet, string) -> FileSet,
    // `ncc(input)`
    ncc: FileRef -> Bundle,
    // `readFile(path, 'utf8')`
    readText: FileRef -> string)

  /** The files shipped with a builder: the text of its launcher.js and the path of @now/node-bridge. */
  datatype Env = Env(launcherTemplate: string, bridgePath: string)

  datatype Command = NpmInstall(cwd: string, args: seq<string>) | RunScript(cwd: string, script: string)

  /** A command and the files of the directory it ran in, as it found them. */
  datatype Step = Step(cmd: Command, seen: FileSet)

  /** `JSON.stringify({ dependencies: { '@zeit/ncc': '0.4.1' } })`. */
  const NccManifest := "{\"dependencies\":{\"@zeit/ncc\":\"0.4.1\"}}"

  function Commands(log: seq<Step>): (cmds: seq<Command>)
    ensures |cmds| == |log|
    ensures forall i :: 0 <= i < |log| ==> cmds[i] == log[i].cmd
  {
    seq(|log|, i requires 0 <= i < |log| => log[i].cmd)
  }

  /** Each file referenced at its place under `dirPath`. */
  function Relocated(dirPath: string, files: FileSet): FileSet {
    map k | k in files :: FsRef(Join(dirPath, k))
  }

  /**
   * The files below `<workPath>`, keyed by their path relative to it; `glob(pattern, workPath)`
   * resolves the matching ones to references to their places (`Relocated(workPath, …)`).
   */
  function Listing(user: FileSet, ncc: FileSet): FileSet {
    Prefixed("user/", user) + Prefixed("ncc/", ncc)
  }

  class WorkDir {
    const workPath: string
    var user: FileSet
    var ncc: FileSet
    var log: seq<Step>

    /** A scratch directory that may already hold files (a restored cache does). */
    constructor (workPath: string, user: FileSet, ncc: FileSet)
      ensures this.workPath == workPath && this.user == user && this.ncc == ncc && log == []
    {
      this.workPath := workPath;
      this.user := user;
      this.ncc := ncc;
      log := [];
    }

    function UserPath(): string { Join(workPath, "user") }

    function NccPath(): string { Join(workPath, "ncc") }

    /**
     * `download(files, userPath)`: writes every file, replacing any already there, and resolves to
     * the files as they now lie under the user directory.
     */
    method DownloadUser(files: FileSet) returns (downloaded: FileSet)
      modifies this
      ensures downloaded == Relocated(UserPath(), files)
      ensures user == old(user) + files
      ensures ncc == old(ncc) && log == old(log)
    {
      user := user + files;
      downloaded := Relocated(UserPath(), files);
    }

    /** `fs.remove(workPath)`: the whole directory is gone; the commands run so far stay logged. */
    method Remove()
      modifies this
      ensures user == map[] && ncc == map[] && log == old(log)
    {
      user := map[];
      ncc := map[];
    }

    /** `writeFile(join(userPath, path), data)`. */
    method WriteUser(path: string, data: string)
      modifies this
      ensures user == old(user)[path := Blob(data)]
      ensures ncc == old(ncc) && log == old(log)
    {
      user := user[path := Blob(data)];
    }

    /** `unlink(join(userPath, path))`, which rejects when the file is not there. */
    method UnlinkUser(path: string) returns (ok: bool)
      modifies this
      ensures ok == (path in old(user))
      ensures user == old(user) - {path}
      ensures ncc == old(ncc) && log == old(log)
    {
      ok := path in user;
      user := user - {path};
    }

    /** `runNpmInstall(join(userPath, sub), args)`. */
    method InstallUser(tools: Tools, sub: string, args: seq<string>)
      modifies this
      ensures log == old(log) + [Step(NpmInstall(Join(UserPath(), sub), args), old(user))]
      ensures user == tools.npmInstall(sub, old(user), args)
      ensures ncc == old(ncc)
    {
      log := log + [Step(NpmInstall(Join(UserPath(), sub), args), user)];
      user := tools.npmInstall(sub, user, args);
    }

    /** `runPackageJsonScript(join(userPath, sub), script)`. */
    method RunUserScript(tools: Tools, sub: string, script: string)
      modifies this
      ensures log == old(log) + [Step(RunScript(Join(UserPath(), sub), script), old(user))]
      ensures user == tools.runScript(sub, old(user), script)
      ensures ncc == old(ncc)
    {
      log := log + [Step(RunScript(Join(UserPath(), sub), script), user)];
      user := tools.runScript(sub, user, script);
    }

    /** `download({ 'package.json': ... }, nccPath)` followed by `runNpmInstall(nccPath, args)`. */
    method InstallNcc(tools: Tools, args: seq<string>)
      modifies this
      ensures log == old(log) + [Step(NpmInstall(NccPath(), args), old(ncc)["package.json" := Blob(NccManifest)])]
      ensures ncc == tools.npmInstall(".", old(ncc)["package.json" := Blob(NccManifest)], args)
      ensures user == old(user)
    {
      ncc := ncc["package.json" := Blob(NccManifest)];
      log := log + [Step(NpmInstall(NccPath(), args), ncc)];
      ncc := tools.npmInstall(".", ncc, args);
    }
  }
}
