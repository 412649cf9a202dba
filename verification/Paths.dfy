/**
 Paths: finding an entry by the names on the way to it, one directory after the other.
 */
module Paths {
  import opened Words
  import opened Disk
  import opened Names
  import opened Forest
  import opened Directories
  import opened Reader
  import opened Steps
  import opened Removal

  /** The components of a path, none of them empty. */
  type Path = seq<Bytes>

  /** Following `path` from `dir` one comes to `h`. */
  ghost predicate Leads(tree: map<Lba, Fact>, intl: bool, dir: Lba, path: Path, h: Lba)
    decreases |path|
  {
    if path == [] then h == dir
    else exists y :: Filed(tree, intl, dir, path[0], y) && Leads(tree, intl, y, path[1..], h)
  }

  /** `x` can be looked into. */
  predicate IsDir(tree: map<Lba, Fact>, root: Lba, x: Lba) {
    x == root || (x in tree && tree[x].kind.Directory?)
  }

  /** The path is good up to component `i`, where it comes to something that is no directory,
      or goes on with a name longer than any can be. */
  ghost predicate StuckAt(tree: map<Lba, Fact>, f: Format, root: Lba, dir: Lba, path: Path, i: nat)
    requires i < |path|
  {
    exists y :: Leads(tree, f.intl, dir, path[..i], y) && (|path[i]| > MaxName(f) || !IsDir(tree, root, y))
  }

  ghost predicate Stuck(tree: map<Lba, Fact>, f: Format, root: Lba, dir: Lba, path: Path) {
    exists i :: 0 <= i < |path| && StuckAt(tree, f, root, dir, path, i)
  }

  /** No two entries of a directory go by one name. */
  ghost predicate OneEach(tree: map<Lba, Fact>, intl: bool) {
    forall dir, name, h, k :: Filed(tree, intl, dir, name, h) && Filed(tree, intl, dir, name, k) ==> h == k
  }

  lemma NamesAreUnique(d: Disk, f: Format, s: Shape, rank: map<Lba, int>)
    requires InOrder(d, f, s, rank)
    ensures OneEach(Tree(d, s), f.intl)
  {
    hide Named, Led, Tree, SameName;
    forall dir, name, h, k | Filed(Tree(d, s), f.intl, dir, name, h) && Filed(Tree(d, s), f.intl, dir, name, k)
      ensures h == k
    {
      SameFiled(d, f, s, rank, dir, name, h, k);
    }
  }

  /** A path leads to one place at most. */
  lemma {:induction false} LeadsToOne(tree: map<Lba, Fact>, intl: bool, dir: Lba, path: Path, h: Lba, k: Lba)
    requires OneEach(tree, intl) && Leads(tree, intl, dir, path, h) && Leads(tree, intl, dir, path, k)
    ensures h == k
    decreases |path|
  {
    if path != [] {
      var y :| Filed(tree, intl, dir, path[0], y) && Leads(tree, intl, y, path[1..], h);
      var z :| Filed(tree, intl, dir, path[0], z) && Leads(tree, intl, z, path[1..], k);
      LeadsToOne(tree, intl, y, path[1..], h, k);
    }
  }

  /** Two paths make one. */
  lemma {:induction false} LeadsAcross(tree: map<Lba, Fact>, intl: bool, dir: Lba, first: Path, y: Lba, rest: Path,
          h: Lba)
    requires Leads(tree, intl, dir, first, y) && Leads(tree, intl, y, rest, h)
    ensures Leads(tree, intl, dir, first + rest, h)
    decreases |first|
  {
    if first == [] {
      assert first + rest == rest;
    } else {
      var z :| Filed(tree, intl, dir, first[0], z) && Leads(tree, intl, z, first[1..], y);
      LeadsAcross(tree, intl, z, first[1..], y, rest, h);
      assert (first + rest)[1..] == first[1..] + rest && (first + rest)[0] == first[0];
    }
  }

  /** A path leads on through any point of it. */
  lemma {:induction false} LeadsThrough(tree: map<Lba, Fact>, intl: bool, dir: Lba, first: Path, rest: Path, h: Lba)
          returns (y: Lba)
    requires Leads(tree, intl, dir, first + rest, h)
    ensures Leads(tree, intl, dir, first, y) && Leads(tree, intl, y, rest, h)
    decreases |first|
  {
    if first == [] {
      assert first + rest == rest;
      y := dir;
    } else {
      assert (first + rest)[1..] == first[1..] + rest && (first + rest)[0] == first[0];
      var z :| Filed(tree, intl, dir, first[0], z) && Leads(tree, intl, z, first[1..] + rest, h);
      y := LeadsThrough(tree, intl, z, first[1..], rest, h);
    }
  }

  lemma OneStep(tree: map<Lba, Fact>, intl: bool, dir: Lba, name: Bytes, h: Lba)
    requires Filed(tree, intl, dir, name, h)
    ensures Leads(tree, intl, dir, [name], h)
  {
    assert [name][1..] == [];
    assert Leads(tree, intl, h, [name][1..], h);
    assert Filed(tree, intl, dir, [name][0], h);
  }

  /** One component more. */
  lemma LeadsOn(tree: map<Lba, Fact>, intl: bool, dir: Lba, path: Path, i: nat, y: Lba, z: Lba)
    requires i < |path| && Leads(tree, intl, dir, path[..i], y) && Filed(tree, intl, y, path[i], z)
    ensures Leads(tree, intl, dir, path[..i + 1], z)
  {
    OneStep(tree, intl, y, path[i], z);
    LeadsAcross(tree, intl, dir, path[..i], y, [path[i]], z);
    assert path[..i + 1] == path[..i] + [path[i]];
  }

  /** Where the next component is not there, the path leads nowhere, nor does it get stuck. */
  lemma DeadEnd(tree: map<Lba, Fact>, f: Format, root: Lba, dir: Lba, path: Path, i: nat, y: Lba)
    requires i < |path| && OneEach(tree, f.intl) && Leads(tree, f.intl, dir, path[..i], y)
              && Absent(tree, f.intl, y, path[i])
    ensures forall j, h :: i < j <= |path| ==> !Leads(tree, f.intl, dir, path[..j], h)
  {
    hide SameName;
    forall j, h | i < j <= |path|
      ensures !Leads(tree, f.intl, dir, path[..j], h)
    {
      assert path[i..j][0] == path[i];
      if Leads(tree, f.intl, dir, path[..j], h) {
        assert path[..j] == path[..i] + path[i..j];
        var z := LeadsThrough(tree, f.intl, dir, path[..i], path[i..j], h);
        LeadsToOne(tree, f.intl, dir, path[..i], y, z);
        assert false;
      }
    }
  }

  lemma StuckHere(tree: map<Lba, Fact>, f: Format, root: Lba, dir: Lba, path: Path, i: nat, y: Lba)
    requires i < |path| && Leads(tree, f.intl, dir, path[..i], y) && (|path[i]| > MaxName(f) || !IsDir(tree, root, y))
    ensures Stuck(tree, f, root, dir, path)
  {
    assert StuckAt(tree, f, root, dir, path, i);
  }

  lemma NotStuckHere(tree: map<Lba, Fact>, f: Format, root: Lba, dir: Lba, path: Path, i: nat, y: Lba)
    requires i < |path| && OneEach(tree, f.intl) && Leads(tree, f.intl, dir, path[..i], y) && |path[i]| <= MaxName(f)
              && IsDir(tree, root, y)
    ensures !StuckAt(tree, f, root, dir, path, i)
  {
    if StuckAt(tree, f, root, dir, path, i) {
      var z :| Leads(tree, f.intl, dir, path[..i], z) && (|path[i]| > MaxName(f) || !IsDir(tree, root, z));
      LeadsToOne(tree, f.intl, dir, path[..i], y, z);
    }
  }

  lemma LeadsNowhereYet(tree: map<Lba, Fact>, intl: bool, dir: Lba, path: Path)
    ensures Leads(tree, intl, dir, path[..0], dir)
  {}

  lemma DirIsThere(tree: map<Lba, Fact>, root: Lba, x: Lba)
    requires IsDir(tree, root, x)
    ensures x == root || x in tree
  {}

  lemma NothingStuck(tree: map<Lba, Fact>, f: Format, root: Lba, dir: Lba, path: Path)
    requires forall j :: 0 <= j < |path| ==> !StuckAt(tree, f, root, dir, path, j)
    ensures !Stuck(tree, f, root, dir, path)
  {}

  lemma NeverStuck(tree: map<Lba, Fact>, f: Format, root: Lba, dir: Lba, path: Path, i: nat)
    requires i < |path| && forall j :: 0 <= j <= i ==> !StuckAt(tree, f, root, dir, path, j)
    requires forall j, h :: i < j <= |path| ==> !Leads(tree, f.intl, dir, path[..j], h)
    ensures !Stuck(tree, f, root, dir, path)
    ensures forall h :: !Leads(tree, f.intl, dir, path, h)
  {
    assert path[..|path|] == path;
  }

  /** What a search of the directories needs to know of where it is. */
  lemma DirIsFolder(d: Disk, f: Format, root: Lba, tree: map<Lba, Fact>, s: Shape, rank: map<Lba, int>, x: Lba)
    requires ShowsBy(d, f, root, tree, s, rank) && (x == root || x in tree)
    ensures if IsDir(tree, root, x) then IsFolder(d, s, x) else x < |d| && !IsDirectory(d[x])
  {
    hide Named, Led;
    if x != root { FactsAre(d, d[x]); }
  }

  /** Look one component up. */
  method FindHere(v: Volume, ghost tree: map<Lba, Fact>, here: Lba, name: Bytes, ghost s: Shape, ghost rank: map<Lba,
          int>)
    returns (r: Result<Option<Lba>, Error>)
    requires v.f.slots > 0 && ShowsBy(v.src.blocks, v.f, v.root, tree, s, rank) && (here == v.root || here in tree)
    ensures r.Ok? <==> |name| <= MaxName(v.f) && IsDir(tree, v.root, here)
    ensures r.Ok? && r.value.Some? ==> Filed(tree, v.f.intl, here, name, r.value.value)
    ensures r.Ok? && r.value.None? ==> Absent(tree, v.f.intl, here, name)
  {
    DirIsFolder(v.src.blocks, v.f, v.root, tree, s, rank, here);
    MatchesInTree(v.src.blocks, v.f, s, here, name);
    hide InOrder, SameName, IsDir, Tree, IsFolder, IsDirectory;
    r := v.Lookup(here, name, s, rank);
  }

  /** Look a path up from directory `dir`, component by component. On any volume that shows
      a tree, a crashed one too, what is found is the entry the path leads to, and nothing is
      found only where it leads nowhere; an empty path names no entry. */
  method FindPath(v: Volume, ghost tree: map<Lba, Fact>, dir: Lba, path: Path) returns (r: Result<Option<Lba>, Error>)
    requires v.f.slots > 0 && Shows(v.src.blocks, v.f, v.root, tree) && IsDir(tree, v.root, dir)
    ensures r.Err? <==> Stuck(tree, v.f, v.root, dir, path)
    ensures r.Ok? && r.value.Some? ==>
              path != [] && Leads(tree, v.f.intl, dir, path, r.value.value) && r.value.value in tree
    ensures r.Ok? && r.value.None? ==> path == [] || forall h :: !Leads(tree, v.f.intl, dir, path, h)
  {
    hide InOrder, SameName, StuckAt, OneEach, IsDir, Leads, Stuck, Tree, IsFolder;
    ghost var s, rank :| ShowsBy(v.src.blocks, v.f, v.root, tree, s, rank);
    ghost var d := v.src.blocks;
    NamesAreUnique(d, v.f, s, rank);
    var here, i := dir, 0;
    r := Ok(None);
    DirIsThere(tree, v.root, dir);
    LeadsNowhereYet(tree, v.f.intl, dir, path);
    while i < |path|
      invariant 0 <= i <= |path| && Leads(tree, v.f.intl, dir, path[..i], here) && (here == v.root || here in tree)
      invariant forall j :: 0 <= j < i ==> !StuckAt(tree, v.f, v.root, dir, path, j)
      invariant r == Ok(if i == 0 then None else Some(here)) && (i > 0 ==> here in tree)
    {
      var found := FindHere(v, tree, here, path[i], s, rank);
      if found.Err? {
        StuckHere(tree, v.f, v.root, dir, path, i, here);
        return Err(found.error);
      }
      NotStuckHere(tree, v.f, v.root, dir, path, i, here);
      if found.value.None? {
        DeadEnd(tree, v.f, v.root, dir, path, i, here);
        NeverStuck(tree, v.f, v.root, dir, path, i);
        return Ok(None);
      }
      LeadsOn(tree, v.f.intl, dir, path, i, here, found.value.value);
      here := found.value.value;
      i := i + 1;
      r := Ok(Some(here));
    }
    assert path[..i] == path;
    NothingStuck(tree, v.f, v.root, dir, path);
  }
}
