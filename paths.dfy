/**
 * Node's `path.join` and `path.dirname` on the relative, already normalised paths the builders
 * handle. The path "." (the `dirname` of a bare file name) is the empty path.
 */
module Paths {
  import opened Text

  /** `path.join(a, b)`. */
  function Join(a: string, b: string): string {
    if a == "." then b else if b == "." then a else a + "/" + b
  }

  /** Joining onto one directory never makes two different paths equal. */
  lemma JoinInjective(dir: string, x: string, y: string)
    requires Join(dir, x) == Join(dir, y)
    ensures x == y
  {
    if dir != "." {
      if x != "." && y != "." {
        assert x == Join(dir, x)[|dir| + 1..];
        assert y == Join(dir, y)[|dir| + 1..];
      }
    }
  }

  /** Index of the last '/' in `p`, or -1. */
  function LastSlash(p: string): (r: int)
    ensures -1 <= r < |p|
    ensures r >= 0 ==> p[r] == '/'
    ensures forall j :: r < j < |p| ==> p[j] != '/'
  {
    if p == [] then -1
    else if p[|p| - 1] == '/' then |p| - 1
    else LastSlash(p[..|p| - 1])
  }

  /** `path.dirname(p)`: "." for a bare file name, "/" for a file at the root. */
  function Dirname(p: string): string {
    var i := LastSlash(p);
    if i == -1 then "." else if i == 0 then "/" else p[..i]
  }

  /** `path.basename(p)`. */
  function Basename(p: string): string {
    p[LastSlash(p) + 1..]
  }

  /** A path with a directory is its `dirname`, a slash and its `basename`. */
  lemma DirnameBasename(p: string)
    requires LastSlash(p) > 0
    ensures Dirname(p) == p[..LastSlash(p)] && Basename(p) == p[LastSlash(p) + 1..]
    ensures p == Dirname(p) + "/" + Basename(p)
  {
    var i := LastSlash(p);
    assert p == p[..i] + [p[i]] + p[i + 1..];
  }

  /** Beside `d/base` under a root, only the name `base` gives `d/base` itself. */
  lemma JoinBesideNested(root: string, d: string, base: string, name: string)
    requires root != "." && d != "." && name != "."
    ensures Join(Join(root, d), name) == Join(root, d + "/" + base) <==> name == base
  {
    var u := root + "/" + d;
    assert Join(root, d) == u;
    assert u[|root|] == '/' && (d + "/" + base)[|d|] == '/';
    assert Join(root, d + "/" + base) == (u + "/") + base;
    if (u + "/") + name == (u + "/") + base {
      PrefixCancels(u + "/", name, base);
    }
  }

  /**
   * Under a root, the path beside `p` named `name` is `p` itself exactly when `name` is the
   * basename of `p`, provided `p` is relative and its directory is not written as ".".
   */
  lemma JoinBesideIsJoin(root: string, p: string, name: string)
    requires root != "." && name != "."
    requires LastSlash(p) != 0
    requires LastSlash(p) > 0 ==> p[..LastSlash(p)] != "."
    ensures Join(Join(root, Dirname(p)), name) == Join(root, p) <==> name == Basename(p)
  {
    if LastSlash(p) == -1 {
      assert Dirname(p) == "." && Basename(p) == p;
      if Join(root, name) == Join(root, p) {
        JoinInjective(root, name, p);
      }
    } else {
      DirnameBasename(p);
      JoinBesideNested(root, Dirname(p), Basename(p), name);
    }
  }
}
