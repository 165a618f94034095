/** An abstract filesystem and the library primitives the directory helpers call:
    `Path.rmdir` (`os.rmdir`), `Path.unlink`, `shutil.rmtree` and
    `Path.mkdir(parents=True, exist_ok=True)`.

    A path is its list of components below a fixed base (`/`, or `.` for a
    relative path); the empty path is that base. The filesystem maps each
    existing path to the kind of entry found there, and `IsTree` keeps the
    base a directory and the parent of every other entry a directory.
    Symbolic links are entries of their own that exist and are not
    directories. */
module FsPrimitives {
  import opened Wrappers

  type Path = seq<string>

  datatype Node = Dir | File | Symlink

  type Tree = map<Path, Node>

  /** The `OSError` subclasses the primitives raise. */
  datatype OSError =
    | FileNotFound(path: Path)       // FileNotFoundError
    | FileExists(path: Path)         // FileExistsError
    | NotADirectory(path: Path)      // NotADirectoryError
    | IsADirectory(path: Path)       // IsADirectoryError
    | DirectoryNotEmpty(path: Path)  // OSError (ENOTEMPTY)
    | BaseNotRemovable(path: Path)   // OSError (EBUSY for `/`, EINVAL for `.`)

  /** The result of a call and the filesystem it leaves behind. */
  datatype Effect<T> = Effect(out: Result<T, OSError>, fs: Tree)

  function Parent(p: Path): Path
    requires p != []
  {
    p[..|p| - 1]
  }

  ghost predicate IsTree(fs: Tree) {
    && [] in fs && fs[[]] == Dir
    && forall p :: p in fs && p != [] ==> Parent(p) in fs && fs[Parent(p)] == Dir
  }

  /** Some entry lies directly inside `p`. */
  predicate HasChildren(fs: Tree, p: Path) {
    exists q :: q in fs && q != [] && Parent(q) == p
  }

  /** In a tree, only a directory can have entries below it. */
  lemma {:induction false} BelowIsUnderDir(fs: Tree, p: Path, q: Path)
    requires IsTree(fs)
    requires q in fs && p < q
    ensures p in fs && fs[p] == Dir
    decreases |q|
  {
    if |q| - 1 == |p| {
      assert Parent(q) == p;
    } else {
      assert p < Parent(q);
      BelowIsUnderDir(fs, p, Parent(q));
    }
  }

  /** In a tree, every prefix of an entry is a directory entry. */
  lemma PrefixesOfEntryAreDirs(fs: Tree, p: Path)
    requires IsTree(fs) && p in fs
    ensures forall i :: 0 <= i < |p| ==> p[..i] in fs && fs[p[..i]] == Dir
  {
    forall i | 0 <= i < |p|
      ensures p[..i] in fs && fs[p[..i]] == Dir
    {
      BelowIsUnderDir(fs, p[..i], p);
    }
  }

  /** Some proper prefix of `p` is an entry that is not a directory, so
      the operating system fails on `p` with `ENOTDIR` before looking for it. */
  predicate BlockedAbove(fs: Tree, p: Path) {
    exists i :: 0 <= i < |p| && p[..i] in fs && fs[p[..i]] != Dir
  }

  /** The error the operating system gives for an absent path: `ENOTDIR`
      when a proper prefix is not a directory, otherwise `ENOENT`. */
  function Missing(fs: Tree, p: Path): (err: OSError)
    ensures err == NotADirectory(p) <==> BlockedAbove(fs, p)
    ensures err == FileNotFound(p) <==> !BlockedAbove(fs, p)
  {
    if BlockedAbove(fs, p) then NotADirectory(p) else FileNotFound(p)
  }

  /** `Path.rmdir()`: removes an empty directory; anything else raises. */
  function RmdirStep(fs: Tree, p: Path): (e: Effect<()>)
    ensures e.out.Ok? <==> p in fs && p != [] && fs[p] == Dir && !HasChildren(fs, p)
    ensures e.fs == if e.out.Ok? then fs - {p} else fs
    ensures IsTree(fs) ==> IsTree(e.fs)
  {
    if p !in fs then Effect(Err(Missing(fs, p)), fs)
    else if p == [] then Effect(Err(BaseNotRemovable(p)), fs)
    else if fs[p] != Dir then Effect(Err(NotADirectory(p)), fs)
    else if HasChildren(fs, p) then Effect(Err(DirectoryNotEmpty(p)), fs)
    else Effect(Ok(()), fs - {p})
  }

  /** `Path.unlink(missing_ok)`: removes a file or symbolic link; a directory
      raises. For an absent path `missing_ok` swallows only
      `FileNotFoundError`: under a non-directory the call raises
      `NotADirectoryError` whatever `missingOk` says. */
  function UnlinkStep(fs: Tree, p: Path, missingOk: bool): (e: Effect<()>)
    ensures p !in fs && !BlockedAbove(fs, p) ==>
      e == if missingOk then Effect(Ok(()), fs) else Effect(Err(FileNotFound(p)), fs)
    ensures p !in fs && BlockedAbove(fs, p) ==> e == Effect(Err(NotADirectory(p)), fs)
    ensures p in fs ==> (e.out.Ok? <==> fs[p] != Dir)
    ensures e.fs == if e.out.Ok? then fs - {p} else fs
    ensures IsTree(fs) ==> IsTree(e.fs)
  {
    if p !in fs then
      var err := Missing(fs, p);
      if err.FileNotFound? && missingOk then Effect(Ok(()), fs) else Effect(Err(err), fs)
    else if fs[p] == Dir then Effect(Err(IsADirectory(p)), fs)
    else
      assert IsTree(fs) ==> !HasChildren(fs, p);
      Effect(Ok(()), fs - {p})
  }

  /** Everything in `fs` except `p` and what lies below it. */
  function Outside(fs: Tree, p: Path): (r: Tree)
    ensures forall q :: q in r <==> q in fs && !(p <= q)
    ensures forall q :: q in r ==> r[q] == fs[q]
  {
    map q | q in fs && !(p <= q) :: fs[q]
  }

  /** `shutil.rmtree(p)`: removes the directory `p` and everything below it.
      At the base the contents go but the base itself cannot be removed, and
      the call raises. */
  function RmTreeStep(fs: Tree, p: Path): (e: Effect<()>)
    ensures p !in fs ==> e == Effect(Err(Missing(fs, p)), fs)
    ensures p in fs && fs[p] != Dir ==> e == Effect(Err(NotADirectory(p)), fs)
    ensures p in fs && fs[p] == Dir ==> (e.out.Ok? <==> p != [])
    ensures p in fs && fs[p] == Dir && p != [] ==> e.fs == Outside(fs, p)
    ensures IsTree(fs) ==> IsTree(e.fs)
  {
    if p !in fs then Effect(Err(Missing(fs, p)), fs)
    else if fs[p] != Dir then Effect(Err(NotADirectory(p)), fs)
    else if p == [] then Effect(Err(BaseNotRemovable(p)), map[[] := Dir])
    else
      assert IsTree(fs) ==> IsTree(Outside(fs, p));
      Effect(Ok(()), Outside(fs, p))
  }

  /** The prefixes of `p`, from the base to `p` itself. */
  function Prefixes(p: Path): (r: set<Path>)
    ensures forall q :: q in r <==> q <= p
  {
    var r := set i | 0 <= i <= |p| :: p[..i];
    forall q | q <= p
      ensures q in r
    {
      assert q == p[..|q|];
    }
    r
  }

  /** Directories at every prefix of `p`, the base and `p` included. */
  function DirsAlong(p: Path): (m: Tree)
    ensures forall q :: q in m <==> q <= p
    ensures forall q :: q in m ==> m[q] == Dir
  {
    map q | q in Prefixes(p) :: Dir
  }

  /** `Path.mkdir(parents=True, exist_ok=True)`: creates `p` and every missing
      ancestor as directories; an existing directory is not an error; an
      existing non-directory at `p` or above it raises and nothing is made. */
  function MakeDirsStep(fs: Tree, p: Path): (e: Effect<()>)
    ensures e.out.Ok? <==> !BlockedAbove(fs, p) && !(p in fs && fs[p] != Dir)
    ensures e.out.Ok? ==> e.fs == fs + DirsAlong(p)
    ensures e.out.Err? ==> e.fs == fs
    ensures e.out.Ok? ==> forall q :: q <= p ==> q in e.fs && e.fs[q] == Dir
    ensures IsTree(fs) ==> IsTree(e.fs)
  {
    if BlockedAbove(fs, p) then Effect(Err(NotADirectory(p)), fs)
    else if p in fs && fs[p] != Dir then Effect(Err(FileExists(p)), fs)
    else
      MakeDirsKeepsTree(fs, p);
      Effect(Ok(()), fs + DirsAlong(p))
  }

  /** Adding the directories along an unblocked path keeps a tree a tree. */
  lemma MakeDirsKeepsTree(fs: Tree, p: Path)
    requires !BlockedAbove(fs, p) && !(p in fs && fs[p] != Dir)
    ensures IsTree(fs) ==> IsTree(fs + DirsAlong(p))
  {
    var made := fs + DirsAlong(p);
    if IsTree(fs) {
      forall q | q in made && q != []
        ensures Parent(q) in made && made[Parent(q)] == Dir
      {
        if q <= p {
          assert Parent(q) <= p;
        } else {
          assert q in fs;
          if Parent(q) <= p {
            assert Parent(q) in made && made[Parent(q)] == Dir;
          }
        }
      }
    }
  }

  /** The filesystem the helpers act on. */
  class FileSystem {
    var entries: Tree

    ghost predicate Valid()
      reads this
    {
      IsTree(entries)
    }

    /** A filesystem holding only the base directory. */
    constructor ()
      ensures Valid() && entries == map[[] := Dir]
    {
      entries := map[[] := Dir];
    }

    /** `Path.exists()` */
    predicate Exists(p: Path)
      reads this
    {
      p in entries
    }

    /** `Path.is_dir()` */
    predicate IsDir(p: Path)
      reads this
    {
      p in entries && entries[p] == Dir
    }

    /** `Path.is_file()` */
    predicate IsFile(p: Path)
      reads this
    {
      p in entries && entries[p] == File
    }

    /** `Path.is_symlink()` */
    predicate IsSymlink(p: Path)
      reads this
    {
      p in entries && entries[p] == Symlink
    }

    method Rmdir(p: Path) returns (r: Result<(), OSError>)
      requires Valid()
      modifies this
      ensures Valid()
      ensures Effect(r, entries) == RmdirStep(old(entries), p)
    {
      var e := RmdirStep(entries, p);
      entries := e.fs;
      return e.out;
    }

    method Unlink(p: Path, missingOk: bool) returns (r: Result<(), OSError>)
      requires Valid()
      modifies this
      ensures Valid()
      ensures Effect(r, entries) == UnlinkStep(old(entries), p, missingOk)
    {
      var e := UnlinkStep(entries, p, missingOk);
      entries := e.fs;
      return e.out;
    }

    method RmTree(p: Path) returns (r: Result<(), OSError>)
      requires Valid()
      modifies this
      ensures Valid()
      ensures Effect(r, entries) == RmTreeStep(old(entries), p)
    {
      var e := RmTreeStep(entries, p);
      entries := e.fs;
      return e.out;
    }

    method MakeDirs(p: Path) returns (r: Result<(), OSError>)
      requires Valid()
      modifies this
      ensures Valid()
      ensures Effect(r, entries) == MakeDirsStep(old(entries), p)
    {
      var e := MakeDirsStep(entries, p);
      entries := e.fs;
      return e.out;
    }
  }
}
