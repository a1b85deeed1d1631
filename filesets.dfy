/**
 * File sets: maps from a relative path to a content reference, and the `glob` patterns the
 * builders use to read a directory into one.
 */
module FileSets {
  import opened Text
  import opened Paths

  /**
   * A file's content: a file on disk (FileFsRef), an in-memory buffer (FileBlob), or the
   * `undefined` that an object literal stores when it looks up a path that is absent.
   */
  datatype FileRef = FsRef(fsPath: string) | Blob(data: string) | Undefined

  type FileSet = map<string, FileRef>

  /** What `createLambda` is given: the files, the handler to invoke and the runtime. */
  datatype Lambda = Lambda(files: FileSet, handler: string, runtime: string)

  /** `files[path]`. */
  function Lookup(fs: FileSet, path: string): FileRef {
    if path in fs then fs[path] else Undefined
  }

  // glob('<dir>/**'): every file below `dir`.
  function GlobTree(fs: FileSet, dir: string): FileSet {
    map k | k in fs && StartsWith(k, dir + "/") :: fs[k]
  }

  /** `k` names a file directly inside `dir`. */
  predicate ChildOf(k: string, dir: string) {
    StartsWith(k, dir + "/") && '/' !in k[|dir| + 1..]
  }

  // glob('<dir>/*'): the files directly inside `dir`.
  function GlobChildren(fs: FileSet, dir: string): FileSet {
    map k | k in fs && ChildOf(k, dir) :: fs[k]
  }

  lemma GlobChildrenWithin(fs: FileSet, dir: string)
    ensures forall k :: k in GlobChildren(fs, dir) ==>
      k in fs && GlobChildren(fs, dir)[k] == fs[k] && StartsWith(k, dir + "/")
  {
  }

  /** `glob('path')` for a single file name. */
  function GlobFile(fs: FileSet, path: string): FileSet {
    if path in fs then map[path := fs[path]] else map[]
  }

  /** Every entry of `part` is the entry of `listing` at the same path, and `accept` admits the path. */
  predicate Selected(part: FileSet, listing: FileSet, accept: string -> bool) {
    forall k :: k in part ==> k in listing && part[k] == listing[k] && accept(k)
  }

  lemma GlobTreeSelected(listing: FileSet, dir: string, accept: string -> bool)
    requires forall k :: StartsWith(k, dir + "/") ==> accept(k)
    ensures Selected(GlobTree(listing, dir), listing, accept)
  {
  }

  lemma GlobFileSelected(listing: FileSet, path: string, accept: string -> bool)
    requires accept(path)
    ensures Selected(GlobFile(listing, path), listing, accept)
  {
  }

  lemma SelectedUnion(a: FileSet, b: FileSet, listing: FileSet, accept: string -> bool)
    requires Selected(a, listing, accept) && Selected(b, listing, accept)
    ensures Selected(a + b, listing, accept)
  {
  }

  // glob('**', dir): the files below `dir`, keyed relative to `dir`.
  function GlobRelative(fs: FileSet, dir: string): (r: FileSet)
    ensures forall p :: p in r <==> dir + "/" + p in fs
    ensures forall p :: p in r ==> r[p] == fs[dir + "/" + p]
  {
    var n := |dir| + 1;
    assert forall k :: StartsWith(k, dir + "/") ==> k == (dir + "/") + k[n..];
    var r := map k | k in fs && StartsWith(k, dir + "/") :: k[n..] := fs[k];
    assert forall p :: dir + "/" + p in fs ==> p == (dir + "/" + p)[n..];
    r
  }

  /** The files of `fs` under the directory `prefix` names, as a listing of its parent sees them. */
  function Prefixed(prefix: string, fs: FileSet): (r: FileSet)
    ensures forall k :: k in r <==> StartsWith(k, prefix) && k[|prefix|..] in fs
    ensures forall k :: k in r ==> StartsWith(k, prefix) && r[k] == fs[k[|prefix|..]]
  {
    assert forall x, y :: prefix + x == prefix + y ==> x == y by {
      forall x, y | prefix + x == prefix + y ensures x == y { PrefixCancels(prefix, x, y); }
    }
    var r := map k | k in fs :: prefix + k := fs[k];
    assert forall k :: k in fs ==> (prefix + k)[|prefix|..] == k;
    assert forall k :: StartsWith(k, prefix) ==> k == prefix + k[|prefix|..];
    r
  }

  /** `excludeFiles(fs, exclude)`: drops the entries whose path `exclude` matches. */
  function ExcludeFiles(fs: FileSet, exclude: string -> bool): FileSet {
    map k | k in fs && !exclude(k) :: fs[k]
  }

  /** Each file `f` of `fs` under `join(entryDirectory, prefix + f)`. */
  function Remap(fs: FileSet, prefix: string, entryDirectory: string): (r: FileSet)
    ensures forall f :: f in fs ==> Join(entryDirectory, prefix + f) in r && r[Join(entryDirectory, prefix + f)] == fs[f]
    ensures forall k :: k in r ==> exists f :: f in fs && k == Join(entryDirectory, prefix + f)
  {
    assert forall f, g :: Join(entryDirectory, prefix + f) == Join(entryDirectory, prefix + g) ==> f == g by {
      forall f, g | Join(entryDirectory, prefix + f) == Join(entryDirectory, prefix + g) ensures f == g {
        JoinInjective(entryDirectory, prefix + f, prefix + g);
        PrefixCancels(prefix, f, g);
      }
    }
    map f | f in fs :: Join(entryDirectory, prefix + f) := fs[f]
  }

  /** The entries of `fs` whose paths are in `keys`. */
  function Restrict(fs: FileSet, keys: set<string>): FileSet {
    map k | k in fs && k in keys :: fs[k]
  }

  lemma RestrictInsert(fs: FileSet, keys: set<string>, k: string)
    requires k in fs
    ensures Restrict(fs, keys + {k}) == Restrict(fs, keys)[k := fs[k]]
  {
  }

  /** Remapping one more file adds exactly its entry. */
  lemma RemapAdd(fs: FileSet, f: string, v: FileRef, prefix: string, entryDirectory: string)
    ensures Remap(fs[f := v], prefix, entryDirectory) == Remap(fs, prefix, entryDirectory)[Join(entryDirectory, prefix + f) := v]
  {
    var d := entryDirectory;
    var lhs := Remap(fs, prefix, d)[Join(d, prefix + f) := v];
    var rhs := Remap(fs[f := v], prefix, d);
    forall k | k in rhs ensures k in lhs && lhs[k] == rhs[k] {
      var g :| g in fs[f := v] && k == Join(d, prefix + g);
      if g != f && k == Join(d, prefix + f) {
        JoinInjective(d, prefix + g, prefix + f);
        PrefixCancels(prefix, g, f);
      }
    }
    forall k | k in lhs ensures k in rhs {
      if k != Join(d, prefix + f) {
        var g :| g in fs && k == Join(d, prefix + g);
      }
    }
  }
}
