# now-builders: how the Next.js and Node builders assemble their output

This project models the core of two builders from the now-builders repository, both written in
JavaScript.

- `@now/next` (`packages/now-next/index.js`) takes the files of a Next.js project. It downloads the
  entry directory into `<workPath>/user`. It writes a normalised `package.json` and, when the npm
  token variable is set and not empty, an `.npmrc`. It then installs the dependencies, runs the
  project's `now-build` script, installs the ncc bundler into `<workPath>/ncc`, compiles an optional
  `now.launcher.js`, prunes to production dependencies and removes `.npmrc` again. From the built directory it makes
  three kinds of output:
  - one Lambda per compiled page other than `_app.js`, `_error.js` and `_document.js`, keyed by the
    page's path below the entry directory;
  - the files of `.next/static`, under `_next/static/`;
  - the project's own `static` directory.

  `prepareCache` repeats the install in the cache directory and keeps the dependency trees, the lock
  files and Next's build records.
- `@now/node` (`packages/now-node/index.js`) downloads the files and installs dependencies in the
  entrypoint's directory. It runs `now-build` there and bundles the entrypoint with ncc. The bundle's
  code and assets go under `user/`. Together with a launcher (its template with the `require` of the
  bundle filled in) and the bridge, they become the single Lambda of the build, keyed by the
  entrypoint. `prepareCache` keeps the two dependency trees and their lock files.

File sets are maps from a relative path to a file reference: a file on disk, an in-memory blob, or
the `undefined` that an object literal stores for a missing path. JavaScript's object spread is
Dafny's right-biased map union. `download` and `glob` resolve to references to the files' places
on disk, not to their contents. Each builder's scratch directory is a `Workspace.WorkDir` object
whose methods change its `user` and `ncc` contents the way the source's downloads, writes, unlinks,
installs and scripts do. Each command run is logged with the directory contents it saw. The external
programs are parameters:
- npm;
- the `now-build` script;
- the ncc bundler;
- file reads;
- the `./utils` helpers of the Next builder.

Their results are uninterpreted functions of what they are given.

The modules are:
- `Text`: string predicates, `String.prototype.replace` with a string pattern, and `Array.prototype.join`.
- `Paths`: `path.join`, `path.dirname` and `path.basename` on relative paths.
- `FileSets`: file sets, globs, and the remapping `reduce`.
- `Maps`: objects filled by assigning one key per element.
- `Workspace`: the scratch directory and the external programs.
- `NextBuilder` and `NodeBuilder`: the two builders.
- `Wrappers`: `Option` and `Result`.

## Model

| member | source | states |
|---|---|---|
| Text.ReplaceFirst | packages/now-node/index.js:130-137 | with a string pattern, only the first occurrence is replaced: the text before it and after it is kept; a text without the pattern is returned unchanged |
| Text.ReplaceFirstContains | packages/now-node/index.js:130-137 | once the pattern is replaced, the result contains everything the replacement contains |
| Text.JoinWithThree | packages/now-node/index.js:132-136 | `[a, b, c].join(sep)` is `a + sep + b + sep + c` |
| Paths.JoinInjective | packages/now-next/index.js:302 | joining different relative paths onto the same directory gives different paths |
| Paths.JoinBesideIsJoin | packages/now-node/index.js:83-90 | under a root, `join(root, dirname(p), name)` equals `join(root, p)` exactly when `name` is `basename(p)`, for a relative `p` whose directory is not written as "." |
| FileSets.GlobRelative | packages/now-next/index.js:327-330 | `glob('**', dir)` holds path `p` exactly when the listing holds `dir/p`, with the same contents |
| FileSets.Remap | packages/now-next/index.js:331-346 | every file `f` appears at `join(entryDirectory, prefix + f)` with its contents, and nothing else appears |
| FileSets.RemapAdd | packages/now-next/index.js:331-337 | remapping a set with one more file adds exactly that file's entry |
| Maps.KeyedBy | packages/now-node/index.js:86-91 | assigning `obj[key(x)] = val(x)` for each element with distinct keys gives every element's value under its key, and no other key |
| Maps.KeyedByAdd | packages/now-node/index.js:86-91 | one more element adds its entry under a key that was not yet taken |
| Maps.KeyedByCount | packages/now-next/index.js:262-325 | the object has one entry per element |
| Workspace.WorkDir.DownloadUser | packages/now-node/index.js:39 | the downloaded files replace those in `user/`, and `download` resolves to references to their new places |
| Workspace.WorkDir.Remove | packages/now-node/index.js:166 | `fs.remove(workPath)` leaves both directories empty |
| Workspace.WorkDir.WriteUser | packages/now-next/index.js:64-81 | writing a file under `user/` replaces only that path |
| Workspace.WorkDir.UnlinkUser | packages/now-next/index.js:173-175 | `unlink` removes the path and reports whether it existed |
| Workspace.WorkDir.InstallUser | packages/now-node/index.js:45 | `runNpmInstall(join(userPath, sub), args)` is logged with the directory it saw and replaces the directory with npm's result |
| Workspace.WorkDir.RunUserScript | packages/now-node/index.js:119 | `runPackageJsonScript(join(userPath, sub), script)` is logged with the directory it saw and replaces the directory with the script's result |
| Workspace.WorkDir.InstallNcc | packages/now-node/index.js:47-64 | ncc's `package.json` (`@zeit/ncc` 0.4.1) is written, then npm install runs in `ncc/` and sees it |
| NextBuilder.Staged | packages/now-next/index.js:115-132 | the staged user directory holds the normalised `package.json`; with a token that is set and not empty, `.npmrc` set to `//registry.npmjs.org/:_authToken=<token>`; without one, `.npmrc` only if the files brought it |
| NextBuilder.StageUser | packages/now-next/index.js:115-132 | resolves to the downloaded files at their places under `user/` and leaves the directory as `Staged` describes |
| NextBuilder.InstallAndBuild | packages/now-next/index.js:134-172 | the four commands are logged in order, each with the directory it found: install with `--prefer-offline` in `user/`, `now-build` in `user/`, install in `ncc/` after its manifest is written, install with `--prefer-offline --production` in `user/`; the user directory becomes the result of the three user commands in turn, and `ncc/` the result of its install |
| NextBuilder.CommandOrder | packages/now-next/index.js:127-156 | the commands are the two installs, `now-build` and the ncc install in the source's order; the first install sees the normalised manifest and, with a token, `.npmrc`; `now-build` and the production install see what the commands before them left; the ncc install sees ncc's manifest |
| NextBuilder.DownloadInstallAndBundle | packages/now-next/index.js:91-181 | the four commands run on the staged directory; with a token, `.npmrc` is removed from the result, and the call fails exactly when the commands left no `.npmrc` to remove; on success, `filesAfterBuild` references every file of the final user directory at its place, and the result holds the files without lock files and the compiled `now.launcher.js` exactly when one was downloaded |
| NextBuilder.CollectNextFiles | packages/now-next/index.js:221-247 | builds the shared files as `NextFiles` defines them |
| NextBuilder.NodeModulesContents | packages/now-next/index.js:221-224 | the dependency files shipped are exactly those under `node_modules/` outside `node_modules/.cache`, with their contents |
| NextBuilder.DotNextFilesContents | packages/now-next/index.js:217-219 | the `.next` files shipped are exactly the build's files directly inside `.next` and directly inside `.next/server`, with their contents, all under `.next/` |
| NextBuilder.NextFilesOverSpread | packages/now-next/index.js:235-247 | the shared files are the spread plus `next.config.js` exactly when the build has a truthy one, and `now.launcher.js` exactly when the build has one and it was compiled |
| NextBuilder.SpreadSources | packages/now-next/index.js:226-240 | every spread file is the bridge or a build file under `node_modules/` or `.next/`, never under `node_modules/.cache` |
| NextBuilder.SpreadOmits | packages/now-next/index.js:235-240 | neither `next.config.js` nor `now.launcher.js` comes from the spread |
| NextBuilder.NextFilesSources | packages/now-next/index.js:221-247 | every shared file is the bridge, the compiled launcher, or the build's own file under `node_modules/` or `.next/` or `next.config.js`; none is under `node_modules/.cache` |
| NextBuilder.NextFilesIncludes | packages/now-next/index.js:217-247 | every dependency file outside the cache and every file directly inside `.next` or `.next/server` is shared; the bridge always is; the config and the compiled launcher are shared exactly under the conditions of the two `if`s |
| NextBuilder.Pages | packages/now-next/index.js:251-254 | the pages are exactly the paths `p` ending in `.js` for which the build has `.next/server/static/<buildId>/pages/p` |
| NextBuilder.LambdaKeyInjective | packages/now-next/index.js:302 | two pages never share a Lambda key |
| NextBuilder.LambdasOfAdd | packages/now-next/index.js:264-322 | handling one more page adds its Lambda under a fresh key, or nothing for `_app.js`, `_error.js` and `_document.js` |
| NextBuilder.LambdaOfPage | packages/now-next/index.js:264-269 | a page has a Lambda exactly when it is not reserved, and it is that page's Lambda |
| NextBuilder.ReservedPagesHaveNoLambda | packages/now-next/index.js:264-269 | a page has a Lambda exactly when it is not reserved; each such Lambda is the page's own; every Lambda belongs to some non-reserved page |
| NextBuilder.LambdaCount | packages/now-next/index.js:262-325 | there are exactly as many Lambdas as non-reserved pages |
| NextBuilder.PageFileKeysDistinct | packages/now-next/index.js:284-297 | a non-reserved page's four page files are four different paths, none of them `now__launcher.js` |
| NextBuilder.PageFilesLookUp | packages/now-next/index.js:284-297 | the page files are the four paths, each looked up in the built files (`undefined` when absent) |
| NextBuilder.PageLambdaOverlay | packages/now-next/index.js:302-322 | a page's Lambda files are the shared files, then the page files over them, then the launcher over both |
| NextBuilder.PageLambdaFiles | packages/now-next/index.js:284-322 | a page's Lambda holds exactly the shared files, the four page files and the launcher; handler `now__launcher.launcher`, runtime `nodejs8.10` |
| NextBuilder.PathnameOfStem | packages/now-next/index.js:272 | removing the trailing `.js` from `<stem>.js` gives `<stem>` |
| NextBuilder.IndexPagesServeTheirDirectory | packages/now-next/index.js:272-277 | `index.js` answers `/` and `<dir>/index.js` answers `/<dir>` |
| NextBuilder.OtherPagesServeTheirPath | packages/now-next/index.js:272-277 | any other page answers at `/` followed by its path without `.js` |
| NextBuilder.RemapFoldIsRemapOfCopy | packages/now-next/index.js:331-337 | spreading the files one by one under their new keys is remapping the same files spread under their old keys |
| NextBuilder.CopyFoldIsRestrict | packages/now-next/index.js:331-337 | spreading listed entries one by one keeps exactly those entries |
| NextBuilder.RemapFoldIsRemap | packages/now-next/index.js:331-346 | the `reduce` gives the same object whatever order `Object.keys` lists the files in |
| NextBuilder.Merge | packages/now-next/index.js:348 | the output has every Lambda, `.next/static` file and static-directory file; static-directory files win over `.next/static` files, which win over Lambdas; a Lambda in the output is the page's own |
| NextBuilder.CreateLambdas | packages/now-next/index.js:260-325 | in whatever order the pages finish, the `lambdas` object is one Lambda per non-reserved page |
| NextBuilder.Assemble | packages/now-next/index.js:202-348 | after the build, the result is the failure `Missing BUILD_ID` or the merged Lambdas and static files |
| NextBuilder.MissingBuildIdFails | packages/now-next/index.js:203-215 | the build fails with `Missing BUILD_ID` exactly when `.next/BUILD_ID` was not produced |
| NextBuilder.NextFilesNoNpmrc | packages/now-next/index.js:221-247 | the shared files never include `.npmrc` |
| NextBuilder.PageLambdaNoNpmrc | packages/now-next/index.js:284-322 | a page's Lambda adds no `.npmrc` to the shared files |
| NextBuilder.LambdasNoNpmrc | packages/now-next/index.js:262-325 | no page's Lambda holds `.npmrc` |
| NextBuilder.NoCredentialsInLambdas | packages/now-next/index.js:187-349 | no Lambda in the build's output carries `.npmrc`, whatever the user directory holds |
| NextBuilder.Build | packages/now-next/index.js:187-349 | an invalid entrypoint fails before anything is touched; otherwise the four commands run on the staged directory, the user and ncc directories become their results, and with a token `.npmrc` is removed; the build fails with `NpmrcMissing` when the commands left no `.npmrc`, and is otherwise the assembly of references to the final user directory's files |
| NextBuilder.CacheFilesSound | packages/now-next/index.js:360-369 | everything the eight globs collect is an entry of the cache listing, with its contents, at a cached path |
| NextBuilder.CacheFilesComplete | packages/now-next/index.js:360-369 | every entry of the listing at a cached path is collected |
| NextBuilder.NpmrcNotCached | packages/now-next/index.js:360-369 | `user/.npmrc` matches none of the eight globs |
| NextBuilder.CacheFilesContents | packages/now-next/index.js:360-369 | the cache holds exactly the listing's dependency trees, lock files and build records, with their contents, and never `user/.npmrc` |
| NextBuilder.PrepareCache | packages/now-next/index.js:352-381 | the build directory is removed; the four commands run on the staged cache directory, which becomes their result; with a token the call fails exactly when `.npmrc` is gone before the unlink; the result is the eight globs over the cache directory, as references to the files' places, and never holds `user/.npmrc` |
| NodeBuilder.DownloadInstallAndBundle | packages/now-node/index.js:28-66 | the files are downloaded into `user/`; npm install runs in `join(userPath, dirname(entrypoint))` and sees them; ncc's manifest is written and installed in `ncc/` with the same arguments; resolves to the downloaded files, the ncc path and the entrypoint's directory |
| NodeBuilder.AssetKeysInjective | packages/now-node/index.js:86-91 | two asset names never share a path |
| NodeBuilder.Compile | packages/now-node/index.js:69-95 | fails exactly when the entrypoint was not downloaded; otherwise the code, then every asset in any key order, as `Prepared` places them |
| NodeBuilder.PreparedContents | packages/now-node/index.js:78-94 | the prepared files are the code at `join('user', entrypoint)` and each asset at `join('user', dirname(entrypoint), name)` with its data, and nothing else; all lie under `user`; the code survives unless an asset takes its path |
| NodeBuilder.AssetKeyIsCodeKey | packages/now-node/index.js:83-90 | an asset takes the code's path exactly when it is named like the entrypoint's file |
| NodeBuilder.AssetReplacesCode | packages/now-node/index.js:80-91 | the entry at the code's path is the asset named like the entrypoint's file when there is one, and the bundled code otherwise |
| NodeBuilder.LauncherText | packages/now-node/index.js:127-137 | the three statements are joined by single spaces and replace the first `// PLACEHOLDER`, keeping the rest of the template; the launcher then contains `listener = require("./<join('user', entrypoint)>");`; a template without the placeholder is unchanged |
| NodeBuilder.LambdaFilesOverUser | packages/now-node/index.js:142-152 | `launcher.js` and `bridge.js` are added on top of prepared files under `user`, overwriting none of them |
| NodeBuilder.NodeLambdaContents | packages/now-node/index.js:142-155 | the Lambda holds exactly the prepared files, unchanged, plus `launcher.js` (the filled template) and `bridge.js` (the bridge); handler `launcher.launcher`, runtime `nodejs8.10`; the file the launcher requires is shipped |
| NodeBuilder.Build | packages/now-node/index.js:105-159 | succeeds exactly when the entrypoint is among the files; the result has the entrypoint as its only key, mapped to the Lambda of the bundled entrypoint; npm install and `now-build` both run in `join(userPath, dirname(entrypoint))`, with `--prefer-offline` for the installs |
| NodeBuilder.CacheFilesSound | packages/now-node/index.js:171-184 | everything the six globs collect is an entry of the cache listing, with its contents, at a cached path |
| NodeBuilder.CacheFilesComplete | packages/now-node/index.js:171-184 | every entry of the listing at a cached path is collected |
| NodeBuilder.UserCachePath | packages/now-node/index.js:172-177 | under `user/`, only `node_modules/`, `package-lock.json` and `yarn.lock` are cached paths |
| NodeBuilder.CacheFilesContents | packages/now-node/index.js:171-184 | the cache holds exactly the listing's two `node_modules` trees and four lock files, with their contents; nothing else from `user/` |
| NodeBuilder.PrepareCache | packages/now-node/index.js:162-185 | the build directory is removed; the files are downloaded into the cache's `user/`; both installs run there with no arguments, the user one in the entrypoint's directory, and each directory becomes npm's result; the result is the six globs over the cache directory, as references to the files' places |

## Left out

- Path normalisation: `path.join` is modelled on relative paths, with "." as the empty path and no
  folding of `..`, `./` or doubled slashes. Absolute entrypoints are not modelled.
- NodeBuilder.AssetKeyIsCodeKey and NodeBuilder.AssetReplacesCode: only stated for entrypoints whose
  directory is neither "/" nor written as ".", and for asset names other than "."; for those
  inputs, Node's own normalisation would change the paths.
- `glob` is taken to list dotfiles and to match a single-file pattern only when that file exists.
  `glob('**/*.js')` is modelled as every listed path below the directory that ends in `.js`.
- The `./utils` helpers of the Next builder (`validateEntrypoint`, `includeOnlyEntryDirectory`,
  `moveEntryDirectoryToRoot`, `excludeLockFiles`, `excludeStaticDirectory`, `onlyStaticDirectory`,
  `normalizePackageJson`) are not part of this model. Their source is not available here, so they
  are uninterpreted parameters, and no property of theirs is claimed.
- `excludeFiles`, also from `./utils`, is the one helper given a definition: it is assumed to drop
  exactly the entries whose path the predicate matches and keep the rest unchanged. The claims about
  `node_modules/.cache` (`NextBuilder.NodeModulesContents`, `NextBuilder.SpreadSources`,
  `NextBuilder.NextFilesSources`, `NextBuilder.NextFilesIncludes`) rest on that assumption.
- `readPackageJson`'s `JSON.parse` and `writePackageJson`'s `JSON.stringify(…, null, 2)`: the
  manifest is modelled as the text `normalizePackageJson` produces from the text that was read.
- npm, the `now-build` script, ncc and `readFile` are modelled as functions of what they see; their
  exit codes, output and failures are not modelled. ncc's result is modelled as a function of its
  input file only, not of the directory contents when it runs.
- `launcher.js`, `legacy-launcher.js` and `@now/node-bridge` are not part of this model. Their text and
  path enter as the `Env` parameter.
- Logging (`console.log`, `console.error`) is not modelled.
- In `String.prototype.replace`, `$` patterns inside the replacement text are not interpreted. The
  request path or the entrypoint would have to contain `$` for this to matter.
- Concurrency of `Promise.all` is not modelled. Only the fact that pages may complete in any order
  is, through a loop that picks any remaining page.
- `exports.config` is only recorded as the constant `MaxLambdaSize` in each builder; the size limit
  itself is not enforced.
- A build with an npm token whose `.npmrc` disappears before the `unlink` is modelled as the error
  `NpmrcMissing`. The source would reject with the file-system error instead.
- The Next builder's code has no packaging-mode switch (legacy or serverless pages), no manifest
  rules of its own beyond the call to `normalizePackageJson`, and no `NoServerlessPagesBuilt`
  error. Pages are always read from `.next/server/static/<BUILD_ID>/pages`.
