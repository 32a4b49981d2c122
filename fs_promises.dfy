/** The filesystem as the scaffolder sees it through `fs/promises`: one mutable
    object whose awaited calls change it in place, each call specified by the
    matching function of FileTree. */
module FsPromises {
  import opened FileTree

  /** How an awaited call settled. */
  datatype Settled = Fulfilled | Rejected(errno: Errno)

  /** `after` and `s` are what a call whose effect is `r` leaves behind when it
      starts from `before`: a rejected call changes nothing. */
  predicate Performs(r: Result<Tree>, before: Tree, after: Tree, s: Settled) {
    match r
    case Ok(t) => after == t && s == Fulfilled
    case Err(e) => after == before && s == Rejected(e)
  }

  class Disk {
    var files: map<Path, Content>
    var dirs: set<Path>

    function State(): Tree
      reads this
    {
      Tree(files, dirs)
    }

    constructor (t: Tree)
      ensures State() == t
    {
      files := t.files;
      dirs := t.dirs;
    }

    /** `await fs.cp(src, root, { recursive: true })` */
    method Cp(src: Tree, root: Path) returns (s: Settled)
      modifies this
      ensures Performs(CopyTree(old(State()), src, root), old(State()), State(), s)
    {
      if [] !in src.dirs {
        return Rejected(NoEntry);
      }
      if (exists k :: 0 <= k <= |root| && root[..k] in files) || (exists q :: q in src.dirs && root + q in files) {
        return Rejected(NotDirectory);
      }
      if exists q :: q in src.files && root + q in dirs {
        return Rejected(IsDirectory);
      }
      files := files + RebaseMap(src.files, root);
      dirs := dirs + Prefixes(root) + RebaseSet(src.dirs, root);
      s := Fulfilled;
    }

    /** `await fs.mkdir(p, { recursive: true })` */
    method Mkdir(p: Path) returns (s: Settled)
      modifies this
      ensures Performs(MkdirP(old(State()), p), old(State()), State(), s)
    {
      if p in files {
        return Rejected(AlreadyExists);
      }
      if exists k :: 0 <= k < |p| && p[..k] in files {
        return Rejected(NotDirectory);
      }
      dirs := dirs + Prefixes(p);
      s := Fulfilled;
    }

    /** `await fs.copyFile(src, dst)`, reading `src` from the read-only tree `from` */
    method CopyFile(from: Tree, src: Path, dst: Path) returns (s: Settled)
      modifies this
      ensures Performs(FileTree.CopyFile(old(State()), from, src, dst), old(State()), State(), s)
    {
      if src !in from.files {
        return Rejected(if src in from.dirs then IsDirectory else NoEntry);
      }
      s := WriteFile(dst, from.files[src]);
    }

    /** `await fs.writeFile(p, c)` */
    method WriteFile(p: Path, c: Content) returns (s: Settled)
      modifies this
      ensures Performs(FileTree.WriteFile(old(State()), p, c), old(State()), State(), s)
    {
      if p in dirs {
        return Rejected(IsDirectory);
      }
      if p == [] || Parent(p) !in dirs {
        return Rejected(MissingErrno(State(), p));
      }
      files := files[p := c];
      s := Fulfilled;
    }

    /** `await fs.unlink(p)` */
    method Unlink(p: Path) returns (s: Settled)
      modifies this
      ensures Performs(FileTree.Unlink(old(State()), p), old(State()), State(), s)
    {
      if p in files {
        files := files - {p};
        return Fulfilled;
      }
      s := if p in dirs then Rejected(IsDirectory) else Rejected(MissingErrno(State(), p));
    }

    /** `await fs.rmdir(p)` */
    method Rmdir(p: Path) returns (s: Settled)
      modifies this
      ensures Performs(FileTree.Rmdir(old(State()), p), old(State()), State(), s)
    {
      if p !in dirs {
        return if p in files then Rejected(NotDirectory) else Rejected(MissingErrno(State(), p));
      }
      if p == [] {
        return Rejected(Busy);
      }
      if HasEntriesBelow(State(), p) {
        return Rejected(NotEmpty);
      }
      dirs := dirs - {p};
      s := Fulfilled;
    }
  }
}
