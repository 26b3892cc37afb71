/** The three functions of Python's `posixpath` (`os.path` on the Linux hosts the
    pipeline runs on) that the core uses to map paths: `dirname`, `join` and `relpath`. */
module PosixPath {
  import opened Strings

  /** The index just after the last '/' of `p`, or 0 when `p` holds none
      (`p.rfind('/') + 1`). */
  function LastSlashEnd(p: string): (k: nat)
    ensures k <= |p|
    ensures k > 0 ==> p[k - 1] == '/'
    ensures forall i :: k <= i < |p| ==> p[i] != '/'
  {
    if p == [] then 0
    else if p[|p| - 1] == '/' then |p|
    else LastSlashEnd(p[..|p| - 1])
  }

  /** `s.rstrip('/')` */
  function RStripSlash(s: string): (r: string)
    ensures r <= s
    ensures r == [] || r[|r| - 1] != '/'
    ensures forall i :: |r| <= i < |s| ==> s[i] == '/'
  {
    if s != [] && s[|s| - 1] == '/' then RStripSlash(s[..|s| - 1]) else s
  }

  predicate AllSlashes(s: string)
  {
    forall i :: 0 <= i < |s| ==> s[i] == '/'
  }

  /** `posixpath.dirname`: everything up to the last '/', with the trailing slashes
      removed unless the head is made of slashes only (so `dirname("/a") == "/"`). */
  function Dirname(p: string): string
  {
    var head := p[..LastSlashEnd(p)];
    if head != [] && !AllSlashes(head) then RStripSlash(head) else head
  }

  /** A name has an empty directory part exactly when it holds no '/'; this is the test
      that decides whether a `mkdir -p` is issued before a sandbox write. */
  lemma DirnameEmptyIff(p: string)
    ensures Dirname(p) == [] <==> NoSlash(p)
  {
    var k := LastSlashEnd(p);
    if k > 0 {
      var head := p[..k];
      assert head[k - 1] == '/';
      if !AllSlashes(head) {
        var j :| 0 <= j < |head| && head[j] != '/';
        var r := RStripSlash(head);
        assert |r| > j;
      }
    }
  }

  /** The directory part of `d + "/" + name` is `d` itself when `d` is a non-empty
      directory name without a trailing slash and `name` holds no '/'. */
  lemma DirnameOfChild(d: string, name: string)
    requires d != [] && d[|d| - 1] != '/'
    requires NoSlash(name)
    ensures Dirname(d + "/" + name) == d
  {
    var p := d + "/" + name;
    var k := LastSlashEnd(p);
    assert p[|d|] == '/';
    assert k == |d| + 1;
    var head := p[..k];
    assert head == d + "/";
    assert head[|d| - 1] != '/';
    assert !AllSlashes(head);
    assert RStripSlash(head) == RStripSlash(d);
  }

  /** `posixpath.join(a, b)`: an absolute `b` replaces `a`; otherwise one '/' is put
      between them unless `a` is empty or already ends with one. */
  function Join(a: string, b: string): string
  {
    if b != [] && b[0] == '/' then b
    else if a == [] || a[|a| - 1] == '/' then a + b
    else a + "/" + b
  }

  /** `posixpath.join(*parts)`, a left fold of `Join`. */
  function JoinAll(parts: seq<string>): string
  {
    if |parts| == 0 then []
    else if |parts| == 1 then parts[0]
    else Join(JoinAll(parts[..|parts| - 1]), parts[|parts| - 1])
  }

  /** The non-empty components of a path, `[x for x in p.split('/') if x]`. */
  function Components(p: string): (cs: seq<string>)
    ensures forall i :: 0 <= i < |cs| ==> cs[i] != [] && NoSlash(cs[i])
    decreases |p|
  {
    if p == [] then []
    else if p[0] == '/' then Components(p[1..])
    else
      var seg := TakeUntilSlash(p);
      [seg] + Components(p[|seg|..])
  }

  /** Splitting at an inserted '/' splits the components: `a + "/" + b` has the
      components of `a` followed by those of `b`. */
  lemma {:induction false} ComponentsConcat(a: string, b: string)
    ensures Components(a + "/" + b) == Components(a) + Components(b)
    decreases |a|
  {
    var p := a + "/" + b;
    if a == [] {
      assert p[1..] == b;
    } else if a[0] == '/' {
      assert p[1..] == a[1..] + "/" + b;
      ComponentsConcat(a[1..], b);
    } else {
      var sa := TakeUntilSlash(a);
      assert sa <= p;
      assert p[|sa|] == '/';
      TakeUntilSlashUnique(p, sa);
      assert p[|sa|..] == a[|sa|..] + "/" + b;
      ComponentsConcat(a[|sa|..], b);
    }
  }

  /** A single non-empty name without '/' is its own only component. */
  lemma ComponentsOfName(name: string)
    requires name != [] && NoSlash(name)
    ensures Components(name) == [name]
  {
    TakeUntilSlashUnique(name, name);
    assert name[|name|..] == [];
  }

  function CommonPrefixLen(a: seq<string>, b: seq<string>): (n: nat)
    ensures n <= |a| && n <= |b|
    ensures a[..n] == b[..n]
    ensures n < |a| && n < |b| ==> a[n] != b[n]
  {
    if a == [] || b == [] || a[0] != b[0] then 0
    else 1 + CommonPrefixLen(a[1..], b[1..])
  }

  function Repeat(s: string, n: nat): (r: seq<string>)
    ensures |r| == n && forall i :: 0 <= i < n ==> r[i] == s
  {
    if n == 0 then [] else [s] + Repeat(s, n - 1)
  }

  /** `posixpath.relpath(path, start)` for absolute, normalised paths: climb with ".."
      out of the components of `start` not shared with `path`, then descend into the
      rest of `path`; "." when the two are the same directory. */
  function Relpath(path: string, start: string): string
  {
    var sl := Components(start);
    var pl := Components(path);
    var i := CommonPrefixLen(sl, pl);
    var rel := Repeat("..", |sl| - i) + pl[i..];
    if rel == [] then "." else JoinAll(rel)
  }

  /** The path of a child entry listed under a directory is that child's name relative
      to the directory. */
  lemma RelpathOfChild(dir: string, name: string)
    requires name != [] && NoSlash(name)
    ensures Relpath(dir + "/" + name, dir) == name
  {
    ComponentsConcat(dir, name);
    ComponentsOfName(name);
    var sl := Components(dir);
    var pl := Components(dir + "/" + name);
    assert pl == sl + [name];
    var i := CommonPrefixLen(sl, pl);
    assert pl[..|sl|] == sl;
    assert i == |sl|;
    assert Repeat("..", 0) + pl[i..] == [name];
  }

  /** Two component lists that fork after a shared prefix `c` have `c` as their common
      prefix. */
  lemma {:induction false} CommonPrefixLenOfFork(c: seq<string>, x: seq<string>, y: seq<string>)
    requires x != [] && y != [] && x[0] != y[0]
    ensures CommonPrefixLen(c + x, c + y) == |c|
  {
    if c != [] {
      assert (c + x)[1..] == c[1..] + x;
      assert (c + y)[1..] == c[1..] + y;
      CommonPrefixLenOfFork(c[1..], x, y);
    }
  }

  /** A path in a sibling directory of `start` is reached by climbing out of `start`
      with "..": this is where a path that shares only a string prefix with `start`
      (`/home/user2/...` against `/home/user`) is mapped. */
  lemma RelpathOfSibling(base: string, a: string, b: string, name: string)
    requires a != [] && NoSlash(a) && b != [] && NoSlash(b) && name != [] && NoSlash(name)
    requires a != b
    ensures Relpath(base + "/" + b + "/" + name, base + "/" + a) == "../" + b + "/" + name
  {
    ComponentsOfName(a);
    ComponentsOfName(b);
    ComponentsOfName(name);
    ComponentsConcat(base, a);
    ComponentsConcat(b, name);
    assert base + "/" + b + "/" + name == base + "/" + (b + "/" + name);
    ComponentsConcat(base, b + "/" + name);
    RelpathOfForkedComponents(base + "/" + b + "/" + name, base + "/" + a, Components(base), a, b, name);
  }

  lemma RelpathOfForkedComponents(path: string, start: string, c: seq<string>, a: string, b: string, name: string)
    requires Components(start) == c + [a] && Components(path) == c + [b, name]
    requires a != b && b != [] && NoSlash(b) && name != [] && NoSlash(name)
    ensures Relpath(path, start) == "../" + b + "/" + name
  {
    CommonPrefixLenOfFork(c, [a], [b, name]);
    var pl := Components(path);
    assert pl[|c|..] == [b, name];
    var rel := Repeat("..", 1) + [b, name];
    assert rel == ["..", b, name];
    assert rel[..2] == ["..", b] && rel[..2][..1] == [".."];
    assert JoinAll(rel[..2]) == "../" + b;
  }
}
