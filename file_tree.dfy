/** A value model of the part of a POSIX filesystem that the scaffolder touches:
    regular files with opaque contents and directories, addressed by segment
    paths, and the effect of each `fs/promises` call it makes. */
module FileTree {

  /** A path from the filesystem root, one segment per element; [] is the root. */
  type Path = seq<string>

  /** File contents are opaque text. */
  type Content = string

  /** The error codes the filesystem calls reject with. */
  datatype Errno =
    | NoEntry        // ENOENT
    | NotDirectory   // ENOTDIR
    | IsDirectory    // EISDIR
    | AlreadyExists  // EEXIST
    | NotEmpty       // ENOTEMPTY
    | Busy           // EBUSY

  /** What a filesystem call settles to: the new tree, or the error it rejects with. */
  datatype Result<T> = Ok(value: T) | Err(errno: Errno)

  /** A directory tree: the content of every regular file, and every directory. */
  datatype Tree = Tree(files: map<Path, Content>, dirs: set<Path>)

  function Parent(p: Path): Path
    requires p != []
  {
    p[..|p| - 1]
  }

  /** A tree a real filesystem can hold: the root is a directory, every other
      entry lies in a directory, and no path is both a file and a directory. */
  ghost predicate WellFormed(t: Tree) {
    && [] in t.dirs
    && (forall d :: d in t.dirs && d != [] ==> Parent(d) in t.dirs)
    && (forall p :: p in t.files ==> p != [] && Parent(p) in t.dirs)
    && (forall p :: p in t.files ==> p !in t.dirs)
  }

  /** `t` and `u` agree at `p`: both hold the same file there, or neither holds a file. */
  predicate SameFileAt(t: Tree, u: Tree, p: Path) {
    && (p in t.files <==> p in u.files)
    && (p in t.files ==> t.files[p] == u.files[p])
  }

  /** Some file or directory lies strictly beneath `p`. */
  predicate HasEntriesBelow(t: Tree, p: Path) {
    || (exists q :: q in t.files && p < q)
    || (exists q :: q in t.dirs && p < q)
  }

  /** The error for a path that names nothing: ENOTDIR when an ancestor is a
      regular file, ENOENT otherwise. */
  function MissingErrno(t: Tree, p: Path): Errno {
    if exists k :: 0 <= k < |p| && p[..k] in t.files then NotDirectory else NoEntry
  }

  /** The path itself and all its ancestors. */
  function Prefixes(p: Path): (r: set<Path>)
    ensures forall k :: 0 <= k <= |p| ==> p[..k] in r
    ensures forall q :: q in r ==> q <= p
  {
    set k | 0 <= k <= |p| :: p[..k]
  }

  /** The paths of `s` moved under `root`. */
  function RebaseSet(s: set<Path>, root: Path): (r: set<Path>)
    ensures forall q :: q in s ==> root + q in r
    ensures forall p :: p in r ==> root <= p && p[|root|..] in s
  {
    set q | q in s :: root + q
  }

  /** The entries of `m` moved under `root`. */
  function RebaseMap(m: map<Path, Content>, root: Path): (r: map<Path, Content>)
    ensures forall q :: q in m ==> root + q in r && r[root + q] == m[q]
    ensures forall p :: p in r ==> root <= p && p[|root|..] in m
  {
    map p | p in RebaseSet(m.Keys, root) :: m[p[|root|..]]
  }

  /** `fs.unlink(p)`: removes a regular file; rejects for a directory or a missing path. */
  function Unlink(t: Tree, p: Path): (r: Result<Tree>)
    ensures r.Ok? <==> p in t.files
    ensures r.Ok? ==> p !in r.value.files && r.value.dirs == t.dirs
    ensures r.Ok? ==> forall q :: q != p ==> SameFileAt(t, r.value, q)
    ensures r.Ok? && WellFormed(t) ==> WellFormed(r.value)
  {
    if p in t.files then Ok(Tree(t.files - {p}, t.dirs))
    else if p in t.dirs then Err(IsDirectory)
    else Err(MissingErrno(t, p))
  }

  /** `fs.rmdir(p)`: removes a directory only when nothing lies beneath it. */
  function Rmdir(t: Tree, p: Path): (r: Result<Tree>)
    ensures r.Ok? <==> p != [] && p in t.dirs && !HasEntriesBelow(t, p)
    ensures r.Ok? ==> r.value.files == t.files && p !in r.value.dirs
    ensures r.Ok? ==> forall d :: d != p ==> (d in r.value.dirs <==> d in t.dirs)
    ensures r.Ok? && WellFormed(t) ==> WellFormed(r.value)
  {
    if p in t.dirs then
      if p == [] then Err(Busy)
      else if HasEntriesBelow(t, p) then Err(NotEmpty)
      else
        var u := Tree(t.files, t.dirs - {p});
        assert WellFormed(t) ==> WellFormed(u) by {
          if WellFormed(t) {
            forall d | d in u.dirs && d != [] ensures Parent(d) in u.dirs {
              assert p < d ==> HasEntriesBelow(t, p);
            }
            forall f | f in u.files ensures Parent(f) in u.dirs {
              assert p < f ==> HasEntriesBelow(t, p);
            }
          }
        }
        Ok(u)
    else if p in t.files then Err(NotDirectory)
    else Err(MissingErrno(t, p))
  }

  /** `fs.mkdir(p, { recursive: true })`: creates `p` and every missing ancestor;
      an existing directory is no error, a regular file on the way is. */
  function MkdirP(t: Tree, p: Path): (r: Result<Tree>)
    ensures r.Ok? <==> forall k :: 0 <= k <= |p| ==> p[..k] !in t.files
    ensures r.Ok? ==> r.value.files == t.files && p in r.value.dirs && t.dirs <= r.value.dirs
    ensures r.Ok? ==> forall d :: d in r.value.dirs && d !in t.dirs ==> d <= p
    ensures r.Ok? && WellFormed(t) ==> WellFormed(r.value)
  {
    assert p[..|p|] == p;
    if p in t.files then Err(AlreadyExists)
    else if exists k :: 0 <= k < |p| && p[..k] in t.files then Err(NotDirectory)
    else
      var u := Tree(t.files, t.dirs + Prefixes(p));
      assert WellFormed(t) ==> WellFormed(u) by {
        if WellFormed(t) {
          forall d | d in u.dirs && d != [] ensures Parent(d) in u.dirs {
            if d !in t.dirs {
              assert d == p[..|d|];
              assert Parent(d) == p[..|d| - 1];
            }
          }
        }
      }
      Ok(u)
  }

  /** `fs.writeFile(p, c)`: creates or truncates the regular file `p` so that it
      holds `c`; its directory must exist and `p` must not be a directory. */
  function WriteFile(t: Tree, p: Path, c: Content): (r: Result<Tree>)
    ensures r.Ok? <==> p != [] && p !in t.dirs && Parent(p) in t.dirs
    ensures r.Ok? ==> r.value.dirs == t.dirs && p in r.value.files && r.value.files[p] == c
    ensures r.Ok? ==> forall q :: q != p ==> SameFileAt(t, r.value, q)
    ensures r.Ok? && WellFormed(t) ==> WellFormed(r.value)
  {
    if p in t.dirs then Err(IsDirectory)
    else if p == [] || Parent(p) !in t.dirs then Err(MissingErrno(t, p))
    else Ok(Tree(t.files[p := c], t.dirs))
  }

  /** `fs.copyFile(src, dst)` with `src` read from the read-only tree `from`:
      a missing source rejects; otherwise `dst` is written as by WriteFile. */
  function CopyFile(t: Tree, from: Tree, src: Path, dst: Path): (r: Result<Tree>)
    ensures r.Ok? <==> src in from.files && dst != [] && dst !in t.dirs && Parent(dst) in t.dirs
    ensures r.Ok? ==> r.value.dirs == t.dirs && dst in r.value.files && r.value.files[dst] == from.files[src]
    ensures r.Ok? ==> forall q :: q != dst ==> SameFileAt(t, r.value, q)
    ensures r.Ok? && WellFormed(t) ==> WellFormed(r.value)
    ensures src !in from.files ==> r == Err(if src in from.dirs then IsDirectory else NoEntry)
  {
    if src !in from.files then Err(if src in from.dirs then IsDirectory else NoEntry)
    else WriteFile(t, dst, from.files[src])
  }

  /** Copying `src` to `root` would put a directory where a file is, or a file
      where a directory is. */
  predicate CopyConflict(t: Tree, src: Tree, root: Path) {
    || (exists k :: 0 <= k <= |root| && root[..k] in t.files)
    || (exists q :: q in src.dirs && root + q in t.files)
    || (exists q :: q in src.files && root + q in t.dirs)
  }

  /** `fs.cp(src, root, { recursive: true })`: overlays the whole tree `src` onto
      `root`, creating `root` and its ancestors as needed, merging into
      directories that already exist and overwriting files that already exist. */
  function CopyTree(t: Tree, src: Tree, root: Path): (r: Result<Tree>)
    ensures r.Ok? <==> [] in src.dirs && !CopyConflict(t, src, root)
    ensures r.Ok? ==> forall q :: q in src.files ==> root + q in r.value.files && r.value.files[root + q] == src.files[q]
    ensures r.Ok? ==> forall p :: !(root <= p && p[|root|..] in src.files) ==> SameFileAt(t, r.value, p)
    ensures r.Ok? ==> t.dirs <= r.value.dirs && forall q :: q in src.dirs ==> root + q in r.value.dirs
    ensures r.Ok? ==> forall d :: d in r.value.dirs ==> d in t.dirs || d <= root || (root <= d && d[|root|..] in src.dirs)
    ensures r.Ok? && WellFormed(t) && WellFormed(src) ==> WellFormed(r.value)
  {
    if [] !in src.dirs then Err(NoEntry)
    else if exists k :: 0 <= k <= |root| && root[..k] in t.files then Err(NotDirectory)
    else if exists q :: q in src.dirs && root + q in t.files then Err(NotDirectory)
    else if exists q :: q in src.files && root + q in t.dirs then Err(IsDirectory)
    else
      var u := Tree(t.files + RebaseMap(src.files, root), t.dirs + Prefixes(root) + RebaseSet(src.dirs, root));
      CopyTreeWellFormed(t, src, root, u);
      Ok(u)
  }

  lemma CopyTreeWellFormed(t: Tree, src: Tree, root: Path, u: Tree)
    requires [] in src.dirs && !CopyConflict(t, src, root)
    requires u == Tree(t.files + RebaseMap(src.files, root), t.dirs + Prefixes(root) + RebaseSet(src.dirs, root))
    ensures WellFormed(t) && WellFormed(src) ==> WellFormed(u)
  {
    if WellFormed(t) && WellFormed(src) {
      forall d | d in u.dirs && d != [] ensures Parent(d) in u.dirs {
        if d in Prefixes(root) {
          assert d == root[..|d|];
          assert Parent(d) == root[..|d| - 1];
        } else if d !in t.dirs {
          var q := d[|root|..];
          assert d == root + q;
          if q == [] {
            assert Parent(d) == root[..|root| - 1];
          } else {
            assert Parent(d) == root + Parent(q);
          }
        }
      }
      forall f | f in u.files ensures f != [] && Parent(f) in u.dirs && f !in u.dirs {
        if f in RebaseMap(src.files, root) {
          var q := f[|root|..];
          assert f == root + q;
          assert Parent(f) == root + Parent(q);
        } else {
          assert f in t.files;
          assert root <= f ==> f == root + f[|root|..];
        }
      }
    }
  }
}
