/** The directory helpers of `tclg/pathlib.py`: `mkdir`, `rmdir`, `rmdirs` and
    `rm`, run against the abstract filesystem of module `FsPrimitives`.

    Each helper is a method that makes the same library calls, in the same
    order, as the Python function; beside it a specification function gives the
    result and the filesystem left behind, and the properties of the helpers are
    proved about those functions. */
module Pathlib {
  import opened Wrappers
  import opened FsPrimitives

  // ---------------------------------------------------------------------------
  // Paths
  // ---------------------------------------------------------------------------

  /** `path.parents`: the proper ancestors of `p`, closest first, ending with
      the base. */
  function Parents(p: Path): (ps: seq<Path>)
    ensures |ps| == |p|
  {
    seq(|p|, i requires 0 <= i < |p| => p[..|p| - 1 - i])
  }

  /** Every path is a proper ancestor of each path listed before it. */
  ghost predicate Ascending(ps: seq<Path>) {
    forall i, j :: 0 <= i < j < |ps| ==> ps[j] < ps[i]
  }

  /** The ancestors come closest first, each a proper prefix of `p`. */
  lemma ParentsAscending(p: Path)
    ensures Ascending(Parents(p))
    ensures forall q :: q in Parents(p) ==> q < p
  {
    var ps := Parents(p);
    forall i, j | 0 <= i < j < |ps|
      ensures ps[j] < ps[i]
    {
      assert ps[j] == p[..|p| - 1 - j];
      assert ps[i] == p[..|p| - 1 - i];
    }
  }

  /** Putting a path in front of a list of its proper ancestors keeps the list
      ascending. */
  lemma AscendingCons(p: Path, rest: seq<Path>)
    requires Ascending(rest)
    requires forall q :: q in rest ==> q < p
    ensures Ascending([p] + rest)
  {
    var r := [p] + rest;
    forall i, j | 0 <= i < j < |r|
      ensures r[j] < r[i]
    {
      assert r[j] == rest[j - 1] && r[j] in rest;
      if i > 0 {
        assert r[i] == rest[i - 1];
      }
    }
  }

  lemma AscendingTail(ps: seq<Path>)
    requires Ascending(ps) && ps != []
    ensures Ascending(ps[1..])
    ensures forall q :: q in ps[1..] ==> q < ps[0]
  {
    forall i, j | 0 <= i < j < |ps[1..]|
      ensures ps[1..][j] < ps[1..][i]
    {
      assert ps[1..][i] == ps[i + 1] && ps[1..][j] == ps[j + 1];
    }
    forall q | q in ps[1..]
      ensures q < ps[0]
    {
      var k :| 0 <= k < |ps[1..]| && ps[1..][k] == q;
      assert ps[k + 1] == q;
    }
  }

  /** The paths of `qs` that exist in `fs`, in order. */
  function Present(fs: Tree, qs: seq<Path>): (r: seq<Path>)
    ensures forall q :: q in r <==> q in qs && q in fs
  {
    if qs == [] then []
    else if qs[0] in fs then [qs[0]] + Present(fs, qs[1..])
    else Present(fs, qs[1..])
  }

  /** Removing a path the list does not mention does not change which of its
      paths exist. */
  lemma {:induction false} PresentIgnores(fs: Tree, x: Path, qs: seq<Path>)
    requires x !in qs
    ensures Present(fs - {x}, qs) == Present(fs, qs)
  {
    if qs != [] {
      PresentIgnores(fs, x, qs[1..]);
    }
  }

  // ---------------------------------------------------------------------------
  // rmdir
  // ---------------------------------------------------------------------------

  /** `rmdir`: an absent path gives `None` and changes nothing; an existing
      path is removed by `Path.rmdir` and returned, and that call's error
      propagates. */
  function RmdirSpec(fs: Tree, p: Path): (e: Effect<Option<Path>>)
    ensures p !in fs ==> e == Effect(Ok(None), fs)
    ensures p in fs ==> (e.out.Ok? <==> p != [] && fs[p] == Dir && !HasChildren(fs, p))
    ensures p in fs && e.out.Ok? ==> e.out.value == Some(p) && e.fs == fs - {p}
    ensures e.out.Err? ==> e.fs == fs
  {
    if p in fs then
      var step := RmdirStep(fs, p);
      if step.out.Err? then Effect(Err(step.out.error), fs)
      else Effect(Ok(Some(p)), step.fs)
    else Effect(Ok(None), fs)
  }

  method Rmdir(fs: FileSystem, path: Path) returns (r: Result<Option<Path>, OSError>)
    requires fs.Valid()
    modifies fs
    ensures fs.Valid()
    ensures Effect(r, fs.entries) == RmdirSpec(old(fs.entries), path)
  {
    if fs.Exists(path) {
      var removed := fs.Rmdir(path);
      if removed.Err? {
        return Err(removed.error);
      }
      return Ok(Some(path));
    }
    return Ok(None);
  }

  // ---------------------------------------------------------------------------
  // rmdirs
  // ---------------------------------------------------------------------------

  /** The loop of `rmdirs` over the ancestors `ps`, closest first, from the
      filesystem `fs`: an absent ancestor is skipped, an existing one is
      removed with `Path.rmdir`, and the first removal that raises ends the
      loop. Gives the paths removed, in order, and the filesystem left. */
  function Climb(fs: Tree, ps: seq<Path>): (seq<Path>, Tree)
  {
    if ps == [] then ([], fs)
    else if ps[0] !in fs then Climb(fs, ps[1..])
    else
      var step := RmdirStep(fs, ps[0]);
      if step.out.Err? then ([], fs)
      else
        var rest := Climb(step.fs, ps[1..]);
        ([ps[0]] + rest.0, rest.1)
  }

  /** The loop only removes entries: the ones it reports, each a directory
      from its list, in the list's order; everything else stays as it was, and
      the tree invariant is kept. */
  lemma {:induction false} ClimbEffect(fs: Tree, ps: seq<Path>)
    ensures forall q :: q in Climb(fs, ps).1 ==> q in fs && Climb(fs, ps).1[q] == fs[q]
    ensures forall q :: q in fs ==> (q in Climb(fs, ps).1 <==> q !in Climb(fs, ps).0)
    ensures forall q :: q in Climb(fs, ps).0 ==> q in ps && q in fs && fs[q] == Dir
    ensures Ascending(ps) ==> Ascending(Climb(fs, ps).0)
    ensures IsTree(fs) ==> IsTree(Climb(fs, ps).1)
  {
    if ps == [] {
    } else if ps[0] !in fs {
      ClimbEffect(fs, ps[1..]);
      if Ascending(ps) {
        AscendingTail(ps);
      }
    } else if RmdirStep(fs, ps[0]).out.Err? {
    } else {
      var fs1 := fs - {ps[0]};
      ClimbEffect(fs1, ps[1..]);
      var rest := Climb(fs1, ps[1..]);
      assert Climb(fs, ps) == ([ps[0]] + rest.0, rest.1);
      if Ascending(ps) {
        AscendingTail(ps);
        AscendingCons(ps[0], rest.0);
      }
    }
  }

  /** The loop ended at index `n` of `ps`: it removed exactly the ancestors
      before `n` that existed; at `n`, if any, an existing ancestor refused
      removal; and nothing from `n` upward was touched. */
  ghost predicate StoppedAt(fs: Tree, ps: seq<Path>, n: nat, w: (seq<Path>, Tree)) {
    && n <= |ps|
    && w.0 == Present(fs, ps[..n])
    && (n < |ps| ==> ps[n] in w.1 && RmdirStep(w.1, ps[n]).out.Err?)
    && forall j :: n <= j < |ps| ==> (ps[j] in w.1 <==> ps[j] in fs)
  }

  /** The loop skips absent ancestors without stopping, removes existing ones
      in order, and stops at the first one whose removal raises, leaving it
      and everything above it in place. */
  lemma {:induction false} ClimbStopsAtFirstFailure(fs: Tree, ps: seq<Path>)
    requires Ascending(ps)
    ensures exists n: nat :: StoppedAt(fs, ps, n, Climb(fs, ps))
  {
    var w := Climb(fs, ps);
    if ps == [] {
      assert StoppedAt(fs, ps, 0, w);
    } else if ps[0] in fs && RmdirStep(fs, ps[0]).out.Err? {
      assert w == ([], fs);
      assert StoppedAt(fs, ps, 0, w);
    } else {
      AscendingTail(ps);
      var fs1 := fs - {ps[0]};
      var rest := Climb(fs1, ps[1..]);
      if ps[0] in fs {
        assert RmdirStep(fs, ps[0]).fs == fs1;
        assert w == ([ps[0]] + rest.0, rest.1);
      } else {
        assert fs1 == fs;
        assert w == rest;
        assert [] + rest.0 == rest.0;
      }
      ClimbStopsAtFirstFailure(fs1, ps[1..]);
      var n: nat :| StoppedAt(fs1, ps[1..], n, rest);
      StoppedAtStep(fs, ps, n, rest);
    }
  }

  /** One step of the loop, seen from the state before it. */
  lemma StoppedAtStep(fs: Tree, ps: seq<Path>, n: nat, rest: (seq<Path>, Tree))
    requires ps != [] && ps[0] !in ps[1..]
    requires StoppedAt(fs - {ps[0]}, ps[1..], n, rest)
    ensures StoppedAt(fs, ps, n + 1, ((if ps[0] in fs then [ps[0]] else []) + rest.0, rest.1))
  {
    var tail := ps[1..][..n];
    assert ps[..n + 1] == [ps[0]] + tail;
    assert ps[0] !in tail by {
      forall q | q in tail
        ensures q != ps[0]
      {
        assert q in ps[1..];
      }
    }
    PresentIgnores(fs, ps[0], tail);
    forall j | n + 1 <= j < |ps|
      ensures ps[j] in rest.1 <==> ps[j] in fs
    {
      assert ps[j] == ps[1..][j - 1];
    }
  }

  /** `rmdirs`: removes `p` itself if it exists, where a failure propagates
      and changes nothing; then runs the loop over `p`'s ancestors. The paths
      returned are exactly the ones removed, each a directory before, each a
      proper ancestor of the one before it, starting with `p` exactly when `p`
      existed. */
  function RmdirsSpec(fs: Tree, p: Path): (e: Effect<seq<Path>>)
    ensures p in fs && RmdirStep(fs, p).out.Err? ==> e == Effect(Err(RmdirStep(fs, p).out.error), fs)
    ensures e.out.Ok? ==> Ascending(e.out.value)
    ensures e.out.Ok? ==> (p in fs <==> e.out.value != [] && e.out.value[0] == p)
    ensures e.out.Ok? ==> forall q :: q in e.out.value ==> q <= p && q in fs && fs[q] == Dir
    ensures e.out.Ok? ==> forall q :: q in fs ==> (q in e.fs <==> q !in e.out.value)
    ensures forall q :: q in e.fs ==> q in fs && e.fs[q] == fs[q]
    ensures IsTree(fs) ==> IsTree(e.fs)
  {
    ParentsAscending(p);
    var ps := Parents(p);
    if p in fs then
      var leaf := RmdirStep(fs, p);
      if leaf.out.Err? then Effect(Err(leaf.out.error), fs)
      else
        var w := Climb(leaf.fs, ps);
        ClimbEffect(leaf.fs, ps);
        AscendingCons(p, w.0);
        Effect(Ok([p] + w.0), w.1)
    else
      var w := Climb(fs, ps);
      ClimbEffect(fs, ps);
      Effect(Ok(w.0), w.1)
  }

  /** `RmdirsSpec` in terms of the loop, case by case. */
  lemma RmdirsSpecUnfold(fs: Tree, p: Path)
    ensures p in fs && RmdirStep(fs, p).out.Ok? ==>
      RmdirsSpec(fs, p) == Effect(Ok([p] + Climb(fs - {p}, Parents(p)).0), Climb(fs - {p}, Parents(p)).1)
    ensures p !in fs ==> RmdirsSpec(fs, p) == Effect(Ok(Climb(fs, Parents(p)).0), Climb(fs, Parents(p)).1)
  {
  }

  method Rmdirs(fs: FileSystem, path: Path) returns (r: Result<seq<Path>, OSError>)
    requires fs.Valid()
    modifies fs
    ensures fs.Valid()
    ensures Effect(r, fs.entries) == RmdirsSpec(old(fs.entries), path)
  {
    var removed: seq<Path> := [];
    if fs.Exists(path) {
      var leaf := fs.Rmdir(path);
      if leaf.Err? {
        return Err(leaf.error);
      }
      removed := [path];
    }
    assert path in old(fs.entries) ==> fs.entries == old(fs.entries) - {path} && removed == [path];
    assert path !in old(fs.entries) ==> fs.entries == old(fs.entries) && removed == [];
    var above := RmdirParents(fs, Parents(path));
    assert [] + above == above;
    assert Effect(Ok(removed + above), fs.entries) == RmdirsSpec(old(fs.entries), path) by {
      RmdirsSpecUnfold(old(fs.entries), path);
    }
    return Ok(removed + above);
  }

  /** The loop of `rmdirs` over `path.parents`, run from the current state of
      `fs`: it does what `Climb` describes. */
  method RmdirParents(fs: FileSystem, parents: seq<Path>) returns (removed: seq<Path>)
    requires fs.Valid()
    modifies fs
    ensures fs.Valid()
    ensures (removed, fs.entries) == Climb(old(fs.entries), parents)
  {
    ghost var start := fs.entries;
    removed := [];
    var i := 0;
    var stopped := false;
    assert parents[i..] == parents;
    assert removed + Climb(fs.entries, parents).0 == Climb(fs.entries, parents).0;
    while i < |parents| && !stopped
      invariant 0 <= i <= |parents|
      invariant fs.Valid()
      invariant Climb(start, parents)
             == (removed + Climb(fs.entries, parents[i..]).0, Climb(fs.entries, parents[i..]).1)
      invariant stopped ==> Climb(fs.entries, parents[i..]) == ([], fs.entries)
      decreases |parents| - i, if stopped then 0 else 1
    {
      var parent := parents[i];
      ghost var before := fs.entries;
      assert parents[i..][0] == parent && parents[i..][1..] == parents[i + 1..];
      if !fs.Exists(parent) {
        assert Climb(before, parents[i..]) == Climb(before, parents[i + 1..]) by {
          ClimbSkips(before, parents[i..]);
        }
        i := i + 1;
      } else {
        var step := fs.Rmdir(parent);
        if step.Err? {
          assert Climb(before, parents[i..]) == ([], before) by {
            ClimbStops(before, parents[i..]);
          }
          stopped := true;
        } else {
          ghost var rest := Climb(fs.entries, parents[i + 1..]);
          assert removed + Climb(before, parents[i..]).0 == (removed + [parent]) + rest.0
              && Climb(before, parents[i..]).1 == rest.1 by {
            ClimbRemoves(before, parents[i..], fs.entries, rest);
            assert removed + ([parent] + rest.0) == (removed + [parent]) + rest.0;
          }
          removed := removed + [parent];
          i := i + 1;
        }
      }
    }
    assert Climb(fs.entries, parents[i..]) == ([], fs.entries);
    assert removed + [] == removed;
  }

  // ---------------------------------------------------------------------------
  // rmdirs over a bare chain of directories
  // ---------------------------------------------------------------------------

  /** The paths from `p[..k]` up to the base, closest first. */
  function Up(p: Path, k: nat): (ps: seq<Path>)
    requires k <= |p|
    ensures |ps| == k + 1
    ensures forall i :: 0 <= i <= k ==> ps[i] == p[..k - i]
  {
    seq(k + 1, i requires 0 <= i <= k => p[..k - i])
  }

  /** A filesystem holding nothing but the directories from the base down to
      `p[..k]`. */
  function ChainTo(p: Path, k: nat): (fs: Tree)
    requires k <= |p|
    ensures forall q :: q in fs <==> q <= p[..k]
    ensures forall q :: q in fs ==> fs[q] == Dir
  {
    DirsAlong(p[..k])
  }

  /** The deepest directory of a bare chain is empty, and removing it leaves
      the chain one shorter. */
  lemma ChainLeafRemovable(p: Path, k: nat)
    requires 0 < k <= |p|
    ensures RmdirStep(ChainTo(p, k), Up(p, k)[0]).out.Ok?
    ensures ChainTo(p, k) - {Up(p, k)[0]} == ChainTo(p, k - 1)
  {
    var fs := ChainTo(p, k);
    assert Up(p, k)[0] == p[..k];
    assert !HasChildren(fs, p[..k]) by {
      forall q | q in fs && q != []
        ensures Parent(q) != p[..k]
      {
        assert |q| <= k;
      }
    }
    assert fs - {p[..k]} == ChainTo(p, k - 1) by {
      forall q
        ensures q in fs - {p[..k]} <==> q in ChainTo(p, k - 1)
      {
        if q <= p[..k] && q != p[..k] {
          assert |q| < k;
          assert q <= p[..k - 1];
        }
      }
    }
  }

  lemma UpStep(p: Path, k: nat)
    requires 0 < k <= |p|
    ensures Up(p, k)[1..] == Up(p, k - 1)
    ensures [Up(p, k)[0]] + Up(p, k - 1)[..k - 1] == Up(p, k)[..k]
  {
  }

  /** The loop stops at an existing first ancestor that cannot be removed. */
  lemma ClimbStops(fs: Tree, ps: seq<Path>)
    requires ps != [] && ps[0] in fs && RmdirStep(fs, ps[0]).out.Err?
    ensures Climb(fs, ps) == ([], fs)
  {
  }

  /** The loop passes over an absent first ancestor. */
  lemma ClimbSkips(fs: Tree, ps: seq<Path>)
    requires ps != [] && ps[0] !in fs
    ensures Climb(fs, ps) == Climb(fs, ps[1..])
  {
  }

  /** The loop removing its first ancestor goes on from the smaller
      filesystem. */
  lemma ClimbRemoves(fs: Tree, ps: seq<Path>, fs1: Tree, rest: (seq<Path>, Tree))
    requires ps != [] && RmdirStep(fs, ps[0]).out.Ok?
    requires fs - {ps[0]} == fs1 && Climb(fs1, ps[1..]) == rest
    ensures Climb(fs, ps) == ([ps[0]] + rest.0, rest.1)
  {
  }

  lemma {:induction false} ClimbChain(p: Path, k: nat)
    requires k <= |p|
    ensures Climb(ChainTo(p, k), Up(p, k)) == (Up(p, k)[..k], ChainTo(p, 0))
    decreases k
  {
    if k == 0 {
      assert Up(p, 0)[0] == [];
      ClimbStops(ChainTo(p, 0), Up(p, 0));
    } else {
      ClimbChain(p, k - 1);
      ChainLeafRemovable(p, k);
      UpStep(p, k);
      ClimbRemoves(ChainTo(p, k), Up(p, k), ChainTo(p, k - 1), (Up(p, k - 1)[..k - 1], ChainTo(p, 0)));
    }
  }

  /** `rmdirs` on a path whose ancestors hold nothing else removes the path
      and every ancestor but the base, closest first, leaving only the base. */
  lemma RmdirsEmptyChain(p: Path)
    requires p != []
    ensures RmdirsSpec(ChainTo(p, |p|), p) == Effect(Ok(Up(p, |p|)[..|p|]), map[[] := Dir])
  {
    var k := |p|;
    ChainTop(p);
    ClimbChain(p, k - 1);
    ChainBase(p);
    RmdirsSpecUnfold(ChainTo(p, k), p);
  }

  /** The top of the full chain is `p` itself, an empty directory whose
      removal leaves the chain below it, and the ancestors `rmdirs` visits are
      the rest of the chain. */
  lemma ChainTop(p: Path)
    requires p != []
    ensures p in ChainTo(p, |p|) && RmdirStep(ChainTo(p, |p|), p).out.Ok?
    ensures ChainTo(p, |p|) - {p} == ChainTo(p, |p| - 1)
    ensures Parents(p) == Up(p, |p| - 1)
    ensures [p] + Up(p, |p| - 1)[..|p| - 1] == Up(p, |p|)[..|p|]
  {
    var k := |p|;
    assert Up(p, k)[0] == p && Parents(p) == Up(p, k - 1) by {
      assert p[..k] == p;
    }
    ChainLeafRemovable(p, k);
    UpStep(p, k);
  }

  /** The chain of length zero is the base alone. */
  lemma ChainBase(p: Path)
    ensures ChainTo(p, 0) == map[[] := Dir]
  {
  }

  // ---------------------------------------------------------------------------
  // mkdir
  // ---------------------------------------------------------------------------

  /** `mkdir(path, unlink=..., rmtree=...)`: with `unlink` and a file or
      symbolic link at `p`, that entry is removed first; otherwise with
      `rmtree` and a directory at `p`, its whole subtree is removed first;
      then `p` and its missing ancestors are created. On success `p` is
      returned and it and all its ancestors are directories. Without either
      flag it succeeds exactly when nothing on the way to `p` is a
      non-directory. */
  function MkdirSpec(fs: Tree, p: Path, unlink: bool, rmtree: bool): (e: Effect<Path>)
    ensures e.out.Ok? ==> e.out.value == p
    ensures e.out.Ok? ==> forall q :: q <= p ==> q in e.fs && e.fs[q] == Dir
    ensures !unlink && !rmtree ==> (e.out.Ok? <==> !BlockedAbove(fs, p) && !(p in fs && fs[p] != Dir))
    ensures !unlink && !rmtree && e.out.Ok? ==> e.fs == fs + DirsAlong(p)
    ensures IsTree(fs) ==> IsTree(e.fs)
  {
    var cleared :=
      if unlink && p in fs && (fs[p] == File || fs[p] == Symlink) then UnlinkStep(fs, p, false)
      else if rmtree && p in fs && fs[p] == Dir then RmTreeStep(fs, p)
      else Effect(Ok(()), fs);
    if cleared.out.Err? then Effect(Err(cleared.out.error), cleared.fs)
    else
      var made := MakeDirsStep(cleared.fs, p);
      if made.out.Err? then Effect(Err(made.out.error), made.fs)
      else Effect(Ok(p), made.fs)
  }

  method Mkdir(fs: FileSystem, path: Path, unlink: bool := false, rmtree: bool := false) returns (r: Result<Path, OSError>)
    requires fs.Valid()
    modifies fs
    ensures fs.Valid()
    ensures Effect(r, fs.entries) == MkdirSpec(old(fs.entries), path, unlink, rmtree)
  {
    if unlink && (fs.IsFile(path) || fs.IsSymlink(path)) {
      var unlinked := fs.Unlink(path, false);
      if unlinked.Err? {
        return Err(unlinked.error);
      }
    } else if rmtree && fs.IsDir(path) {
      var cleared := fs.RmTree(path);
      if cleared.Err? {
        return Err(cleared.error);
      }
    }
    var made := fs.MakeDirs(path);
    if made.Err? {
      return Err(made.error);
    }
    return Ok(path);
  }

  /** When every proper prefix of `p` is already a directory and `p` is
      absent or a directory, `Path.mkdir(parents=True, exist_ok=True)` only
      makes `p` a directory. */
  lemma MakeDirsOverDirs(fs: Tree, p: Path)
    requires forall i :: 0 <= i < |p| ==> p[..i] in fs && fs[p[..i]] == Dir
    requires p !in fs || fs[p] == Dir
    ensures MakeDirsStep(fs, p) == Effect(Ok(()), fs[p := Dir])
  {
    var made := fs + DirsAlong(p);
    forall q
      ensures q in made <==> q in fs[p := Dir]
      ensures q in made ==> made[q] == fs[p := Dir][q]
    {
      if q <= p && q != p {
        assert q == p[..|q|];
      }
    }
    assert made == fs[p := Dir];
  }

  /** The flags only act on an existing entry: for an absent path `mkdir`
      behaves as without them. */
  lemma MkdirAbsentIgnoresFlags(fs: Tree, p: Path, unlink: bool, rmtree: bool)
    requires p !in fs
    ensures MkdirSpec(fs, p, unlink, rmtree) == MkdirSpec(fs, p, false, false)
  {
  }

  /** `mkdir(".", rmtree=True)` (or `"/"`): `shutil.rmtree` empties the whole
      tree and then raises because the base cannot be removed, so the call
      raises after everything but the base is gone. */
  lemma MkdirRmtreeBase(fs: Tree, unlink: bool)
    requires IsTree(fs)
    ensures MkdirSpec(fs, [], unlink, true) == Effect(Err(BaseNotRemovable([])), map[[] := Dir])
  {
    assert RmTreeStep(fs, []) == Effect(Err(BaseNotRemovable([])), map[[] := Dir]);
  }

  /** `mkdir` of a new path whose parent is a directory makes exactly that
      one directory, whatever the flags say. */
  lemma MkdirNewPath(fs: Tree, p: Path, unlink: bool, rmtree: bool)
    requires IsTree(fs) && p != [] && p !in fs
    requires Parent(p) in fs && fs[Parent(p)] == Dir
    ensures MkdirSpec(fs, p, unlink, rmtree) == Effect(Ok(p), fs[p := Dir])
  {
    PrefixesOfEntryAreDirs(fs, Parent(p));
    forall i | 0 <= i < |p|
      ensures p[..i] in fs && fs[p[..i]] == Dir
    {
      if i < |p| - 1 {
        assert p[..i] == Parent(p)[..i];
      } else {
        assert p[..i] == Parent(p);
      }
    }
    MakeDirsOverDirs(fs, p);
  }

  /** `mkdir(p, unlink=True)` over a file or symbolic link replaces it with an
      empty directory and changes nothing else. */
  lemma MkdirUnlinkReplacesFile(fs: Tree, p: Path, rmtree: bool)
    requires IsTree(fs) && p in fs && fs[p] != Dir
    ensures MkdirSpec(fs, p, true, rmtree) == Effect(Ok(p), fs[p := Dir])
    ensures !HasChildren(fs[p := Dir], p)
  {
    assert UnlinkStep(fs, p, false) == Effect(Ok(()), fs - {p});
    MakeDirsInPlaceOf(fs, p);
    NonDirIsLeaf(fs, p);
  }

  /** Once the entry at `p` is gone, making `p` again puts a directory in its
      place and touches nothing else. */
  lemma MakeDirsInPlaceOf(fs: Tree, p: Path)
    requires IsTree(fs) && p in fs
    ensures MakeDirsStep(fs - {p}, p) == Effect(Ok(()), fs[p := Dir])
  {
    var fs1 := fs - {p};
    PrefixesOfEntryAreDirs(fs, p);
    forall i | 0 <= i < |p|
      ensures p[..i] in fs1 && fs1[p[..i]] == Dir
    {
      assert |p[..i]| < |p|;
    }
    MakeDirsOverDirs(fs1, p);
    assert fs1[p := Dir] == fs[p := Dir];
  }

  /** A file or symbolic link has nothing inside it, also once a directory
      takes its place. */
  lemma NonDirIsLeaf(fs: Tree, p: Path)
    requires IsTree(fs) && p in fs && fs[p] != Dir
    ensures !HasChildren(fs[p := Dir], p)
  {
  }

  /** `mkdir` without `rmtree` on an existing directory is not an error and
      changes nothing. */
  lemma MkdirExistingDir(fs: Tree, p: Path, unlink: bool)
    requires IsTree(fs) && p in fs && fs[p] == Dir
    ensures MkdirSpec(fs, p, unlink, false) == Effect(Ok(p), fs)
  {
    PrefixesOfEntryAreDirs(fs, p);
    MakeDirsOverDirs(fs, p);
    assert fs[p := Dir] == fs;
  }

  /** `mkdir(p, rmtree=True)` on a directory other than the base empties it:
      everything below `p` goes, `p` stays a directory, and everything else is
      as it was. */
  lemma MkdirRmtreeEmpties(fs: Tree, p: Path, unlink: bool)
    requires IsTree(fs) && p != [] && p in fs && fs[p] == Dir
    ensures MkdirSpec(fs, p, unlink, true) == Effect(Ok(p), Outside(fs, p)[p := Dir])
  {
    var fs1 := Outside(fs, p);
    assert RmTreeStep(fs, p) == Effect(Ok(()), fs1);
    PrefixesOfEntryAreDirs(fs, p);
    forall i | 0 <= i < |p|
      ensures p[..i] in fs1 && fs1[p[..i]] == Dir
    {
      assert |p[..i]| < |p|;
    }
    MakeDirsOverDirs(fs1, p);
  }

  // ---------------------------------------------------------------------------
  // rm
  // ---------------------------------------------------------------------------

  /** An absent path under a file or symbolic link cannot be unlinked, even
      with `missing_ok`: the operating system raises `NotADirectoryError`. */
  lemma RmUnderFileRaises(fs: Tree, p: Path, missingOk: bool)
    requires IsTree(fs) && p != [] && Parent(p) in fs && fs[Parent(p)] != Dir
    ensures UnlinkStep(fs, p, missingOk) == Effect(Err(NotADirectory(p)), fs)
  {
    assert p[..|p| - 1] == Parent(p);
  }

  /** `rm(path, missing_ok=True)`: `Path.unlink(missing_ok)`. An absent path
      is a no-op when `missingOk` and raises `FileNotFoundError` otherwise,
      except under a non-directory, where it raises `NotADirectoryError`
      either way; a file or symbolic link is removed; a directory raises. */
  method Rm(fs: FileSystem, path: Path, missingOk: bool := true) returns (r: Result<(), OSError>)
    requires fs.Valid()
    modifies fs
    ensures fs.Valid()
    ensures Effect(r, fs.entries) == UnlinkStep(old(fs.entries), path, missingOk)
    ensures path !in old(fs.entries) ==>
      (r.Ok? <==> missingOk && !BlockedAbove(old(fs.entries), path)) && fs.entries == old(fs.entries)
    ensures path !in old(fs.entries) && BlockedAbove(old(fs.entries), path) ==> r == Err(NotADirectory(path))
    ensures path in old(fs.entries) ==> (r.Ok? <==> old(fs.entries)[path] != Dir)
  {
    r := fs.Unlink(path, missingOk);
  }
}
