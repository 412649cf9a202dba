/**
 Sessions: any script of commands, each naming what it is about by paths, run one after the
 other on one volume. The volume is at every moment an image of a `World`, the tree of its
 entries and the bytes of its files, a command takes one world to the next as its name says,
 and what a crash leaves is the world before the command it cuts short, the one after it,
 or one of the few in between that a command is known to pass through.
 */
module Sessions {
  import opened Disk
  import opened Names
  import opened Forest
  import opened Directories
  import opened Dircache
  import opened Protocol
  import opened Reader
  import opened Steps
  import opened Mutation
  import opened Creation
  import opened Chains
  import opened Contents
  import opened Drafting
  import opened Survival
  import opened Births
  import opened Edits
  import opened Removal
  import opened Renaming
  import opened Compaction
  import opened Paths
  import opened Worlds

  // ---- What the operations' contracts say of worlds ----------------------------------------------------

  /** The files an operation is not about are in the next world too. */
  lemma NextImage(d: Disk, f: Format, s: Shape, w: World, out: Lba, h: Lba, e: Disk, t: Shape, v: World)
    requires f.payload > 0 && Images(d, f, s, w) && StillThere(d, f, s, out, e, t) && (out == h || out == 0)
    requires v.tree == Tree(e, t) && v.files.Keys == FilesOf(v.tree)
    requires forall k :: k in v.files && k != h ==> k in w.files && v.files[k] == w.files[k]
    requires h in v.files ==> h != 0 && t.Owns(h) && Stored(e, f, h, v.files[h])
    ensures Images(e, f, t, v)
  {
    hide Stored, FileIs, Tree, FilesOf;
    forall k | k in v.files
      ensures t.Owns(k) && k != 0 && Stored(e, f, k, v.files[k])
    {
      if k != h { StoredIsRead(d, f, k, w.files[k]); }
    }
  }

  /** The files an operation is not about read the same in every state it leaves. */
  lemma OthersAreRead(d: Disk, f: Format, s: Shape, w: World, h: Lba, trail: seq<Disk>, from: nat)
    requires f.payload > 0 && Images(d, f, s, w) && OthersRead(d, f, s, h, trail, from)
    ensures forall i, k :: from <= i < |trail| && k in w.files && k != h ==> FileIs(trail[i], f, k, w.files[k])
  {
    hide Stored, FileIs, Tree, FilesOf;
    forall i, k | from <= i < |trail| && k in w.files && k != h
      ensures FileIs(trail[i], f, k, w.files[k])
    {
      StoredIsRead(d, f, k, w.files[k]);
    }
  }

  lemma ImageFiles(d: Disk, f: Format, s: Shape, w: World)
    requires f.payload > 0 && Images(d, f, s, w)
    ensures 0 !in w.files && forall k :: k in w.files <==> k in w.tree && w.tree[k].kind.File?
  {
    hide Tree, Stored;
  }

  /** The world the volume is in. */
  ghost predicate Models(m: Mutator, w: World)
    reads m`shape, m.vol.src
  {
    m.vol.f.payload > 0 && Images(m.vol.src.blocks, m.vol.f, m.shape, w)
  }

  lemma ModelsTree(m: Mutator, w: World)
    requires Models(m, w)
    ensures w.tree == m.Entries()
  {
    hide Tree, Stored;
  }

  lemma AnyHandle(m: Mutator, x: Lba)
    requires m.Valid() && (x == m.vol.root || x in m.Entries())
    ensures m.Handle(x)
  {
    hide Mutator.Ready, Orderly, Mutation.Kept;
    m.RootFacts();
    if x in m.Entries() { EntryBlock(m, x); }
  }

  lemma EmptyPath(tree: map<Lba, Fact>, f: Format, root: Lba)
    ensures Leads(tree, f.intl, root, [], root) && !Stuck(tree, f, root, root, [])
  {}

  lemma Nowhere(f: Format, root: Lba, w: World, path: Path)
    requires forall h :: !Leads(w.tree, f.intl, root, path, h)
    ensures forall x :: !Found(f, root, w, path, x)
  {
    forall x
      ensures !Found(f, root, w, path, x)
    {
      assert !Leads(w.tree, f.intl, root, path, x);
    }
  }

  /** The entry a path leads to, or the root. */
  method Where(m: Mutator, path: Path, ghost w: World) returns (r: Option<Lba>)
    requires m.Valid() && Models(m, w)
    ensures r.Some? ==>
              Found(m.vol.f, m.vol.root, w, path, r.value) && m.Handle(r.value)
              && (r.value == m.vol.root || r.value in w.tree)
    ensures r.None? ==> forall x :: !Found(m.vol.f, m.vol.root, w, path, x)
  {
    hide Mutator.Ready, Orderly, Mutation.Kept, Rooted, Shows, Tree, Images, Mutator.Handle, Stuck;
    ModelsTree(m, w);
    OrderlyNow(m);
    if path == [] {
      AnyHandle(m, m.vol.root);
      EmptyPath(w.tree, m.vol.f, m.vol.root);
      return Some(m.vol.root);
    }
    ShowsNow(m);
    var found := FindPath(m.vol, m.Entries(), m.vol.root, path);
    match found {
      case Ok(Some(x)) =>
        AnyHandle(m, x);
        r := Some(x);
      case Ok(None) =>
        Nowhere(m.vol.f, m.vol.root, w, path);
        r := None;
      case Err(_) =>
        r := None;
    }
  }

  /** The volume as it is. */
  ghost function Now(m: Mutator): Snapshot
    reads m`shape, m.vol.src, m.alloc`words
  {
    Snapshot(m.vol.src.blocks, m.shape, m.alloc.Free())
  }

  /** The way up a directory is the same on the disk and in the tree. */
  lemma ClimbIsAscent(d: Disk, s: Shape, dir: Lba, up: seq<Lba>)
    requires Grown(d, s)
    ensures Climbs(d, s, dir, up) <==> Ascends(Tree(d, s), s.root, dir, up)
  {
    if Climbs(d, s, dir, up) {
      forall i | 0 <= i < |up| - 1
        ensures InFolder(Tree(d, s), s.root, up[i], up[i + 1])
      {
        assert ClimbStep(d, s, up[i], up[i + 1]);
        if i + 1 < |up| - 1 { assert ClimbStep(d, s, up[i + 1], up[i + 2]); }
      }
    }
    if Ascends(Tree(d, s), s.root, dir, up) {
      forall i | 0 <= i < |up| - 1
        ensures ClimbStep(d, s, up[i], up[i + 1])
      {
        assert InFolder(Tree(d, s), s.root, up[i], up[i + 1]);
      }
    }
  }

  lemma BeneathIsWithin(d: Disk, s: Shape, dir: Lba, h: Lba)
    requires Grown(d, s)
    ensures Beneath(d, s, dir, h) <==> Within(Tree(d, s), s.root, dir, h)
  {
    forall up
      ensures Climbs(d, s, dir, up) <==> Ascends(Tree(d, s), s.root, dir, up)
    {
      ClimbIsAscent(d, s, dir, up);
    }
    hide Climbs, Ascends, Tree, Grown;
  }

  lemma RootIs(m: Mutator)
    requires m.Valid()
    ensures m.shape.root == m.vol.root
  {
    hide Mutator.Ready, Mutation.Kept, Named, Grown;
  }

  /** What a move needs, said of the world. */
  lemma MoveAllowed(m: Mutator, w: World, c: Command, x: Lba, y: Lba)
    requires m.Valid() && Models(m, w) && c.Move? && m.vol.f.slots > 0
    requires Found(m.vol.f, m.vol.root, w, c.dir, x) && Found(m.vol.f, m.vol.root, w, c.newDir, y)
    ensures Allows(m.vol.f, m.layoutPolicy, m.vol.root, w, Now(m), c) <==>
              MayMove(m.vol.f, m.vol.src.blocks, m.shape, m.alloc.Free(), x, c.name, y, c.newName)
  {
    hide Mutator.Valid, Found, Models, Grown, Tree, Beneath, Within, Absent, NameOk, SameName, NoteFits, IsFolder,
      IsDir, Orderly;
    FoundOne(m, w, c.dir, x);
    FoundOne(m, w, c.newDir, y);
    FolderIsDir(m, y);
    ModelsTree(m, w);
    OrderlyNow(m);
    GrownIs(m.vol.src.blocks, m.vol.f, m.g, m.shape, m.rank, m.vol.root);
    RootIs(m);
    forall h
      ensures Beneath(m.vol.src.blocks, m.shape, y, h) <==> Within(w.tree, m.vol.root, y, h)
    {
      BeneathIsWithin(m.vol.src.blocks, m.shape, y, h);
    }
  }

  lemma RestAllowed(m: Mutator, w: World, c: Command, x: Lba)
    requires m.Valid() && Models(m, w) && m.vol.f.slots > 0 && (c.Describe? || c.Remove? || c.Tidy?)
    requires Found(m.vol.f, m.vol.root, w, if c.Remove? then c.dir else c.what, x)
    ensures Allows(m.vol.f, m.layoutPolicy, m.vol.root, w, Now(m), c) <==>
              if c.Describe? then Describable(m.vol.f, w, Now(m), x, c.update)
              else if c.Remove? then MayUnlink(m.vol.f, m.vol.src.blocks, m.shape, x, c.name)
              else Tidiable(m.vol.f, w, Now(m), x)
    ensures Proper(m.vol.f, m.vol.root, w, c) <==> c.Tidy? && x in w.files
  {
    hide Mutator.Valid, Found, MayUnlink, Describable, Tidiable, Models;
    FoundOne(m, w, if c.Remove? then c.dir else c.what, x);
  }

  /** A command about what cannot be found is refused and costs nothing. */
  lemma Lost(f: Format, layoutPolicy: bool, root: Lba, w: World, c: Command, x: Snapshot)
    requires f.payload > 0 && f.slots > 0
    requires match c
      case Move(dir, _, newDir, _) => (forall y :: !Found(f, root, w, dir, y))
          || (forall y :: !Found(f, root, w, newDir, y))
      case NewHardLink(dir, _, _, _, target) => (forall y :: !Found(f, root, w, dir, y))
          || (forall y :: !Found(f, root, w, target, y))
      case Describe(what, _) => forall y :: !Found(f, root, w, what, y)
      case Tidy(what) => forall y :: !Found(f, root, w, what, y)
      case _ => forall y :: !Found(f, root, w, c.dir, y)
    ensures Accounts(f, layoutPolicy, root, w, c, false, w, x, x)
  {
    hide Found, Absent, NameOk, Made, DrawsOf, Filed, Within, Describable, Tidiable, MayUnlink, Linkable, PathOk,
      NoteFits, Takes;
  }

  /** The account of a create. */
  lemma CreateAccounts(f: Format, layoutPolicy: bool, root: Lba, w: World, c: Command, ok: bool, v: World, x: Snapshot,
          y: Snapshot)
    requires f.payload > 0 && f.slots > 0 && IsCreate(c) && Follows(f, root, w, c, ok, v)
    requires !f.dircache ==> (ok <==> Proper(f, root, w, c) && Takes(f, c) <= |x.free|)
    requires !f.dircache ==>
              if ok then |y.free| + Takes(f, c) == |x.free| else y.free == if Proper(f, root, w, c) then {} else x.free
    ensures Accounts(f, layoutPolicy, root, w, c, ok, v, x, y)
  {
    hide Does, Proper, Takes;
  }

  lemma FoundOne(m: Mutator, w: World, path: Path, x: Lba)
    requires m.Valid() && Models(m, w) && Found(m.vol.f, m.vol.root, w, path, x)
    ensures forall y :: Found(m.vol.f, m.vol.root, w, path, y) ==> y == x
  {
    ModelsTree(m, w);
    m.InOrderNow();
    NamesAreUnique(m.vol.src.blocks, m.vol.f, m.shape, m.rank);
    hide Mutator.Valid, Tree, Leads, InOrder, OneEach, Stuck;
    forall y | Found(m.vol.f, m.vol.root, w, path, y)
      ensures y == x
    {
      LeadsToOne(w.tree, m.vol.f.intl, m.vol.root, path, x, y);
    }
  }

  /** What an operation needs of a directory, said of the world. */
  lemma EnterIff(m: Mutator, w: World, c: Command, x: Lba)
    requires m.Valid() && Models(m, w) && IsCreate(c) && Found(m.vol.f, m.vol.root, w, c.dir, x)
    ensures Nameable(m, x, c.name, c.note) <==> Enterable(m.vol.f, m.vol.root, w, c)
  {
    FoundOne(m, w, c.dir, x);
    ModelsTree(m, w);
    FolderIsDir(m, x);
    hide Mutator.Valid, Tree, Leads, Stuck, Found, Absent, NameOk, IsFolder, IsDir;
  }

  lemma FolderIsDir(m: Mutator, x: Lba)
    requires m.Valid()
    ensures IsFolder(m.vol.src.blocks, m.shape, x) <==> IsDir(m.Entries(), m.vol.root, x)
  {
    hide Mutator.Ready, Mutation.Kept, Named;
    FolderInTree(m.vol.src.blocks, m.shape, x);
  }

  // ---- New entries -------------------------------------------------------------------------------------

  /** An operation that carried every file's blocks over and showed the trees before and
      after it alone. */
  lemma Carried(m: Mutator, d: Disk, s: Shape, rank: map<Lba, int>, writes: seq<Disk>, w: World, v: World)
    requires m.Valid() && m.vol.f.payload > 0 && Orderly(d, m.vol.f, m.g, s, rank, m.vol.root)
              && m.BeganWith(d, s, writes, {})
    requires Images(d, m.vol.f, s, w) && Carries(d, s, m.vol.src.blocks, m.shape) && m.views <= {w.tree, m.Entries()}
    requires v == World(m.Entries(), w.files) && w.files.Keys == FilesOf(v.tree)
    ensures Models(m, v) && writes <= m.vol.src.trail
    ensures forall i :: |writes| <= i < |m.vol.src.trail| ==>
              Realises(m.vol.src.trail[i], m.vol.f, m.vol.root, w)
                  || Realises(m.vol.src.trail[i], m.vol.f, m.vol.root, v)
  {
    hide Mutator.Steady, Orderly, Rooted, Tree, Images, Carries, StillThere, OthersRead, Shows, ShowsOne, FileIs,
      FilesOf, Mutator.BeganWith,
      Grown, Realises, Shown;
    GrownIs(d, m.vol.f, m.g, s, rank, m.vol.root);
    m.ShownSince(d, s, writes, {});
    CarriedReads(d, m.vol.f, s, m.vol.src.blocks, m.shape);
    ImageFiles(d, m.vol.f, s, w);
    NextImage(d, m.vol.f, s, w, 0, 0, m.vol.src.blocks, m.shape, v);
    BeganThen(m, d, s, rank, writes);
    OthersSoFar(m, d, s, rank, writes, 0);
    OthersAreRead(d, m.vol.f, s, w, 0, m.vol.src.trail, |writes|);
    OneOfTwo(m.vol.src.trail, |writes|, m.vol.f, m.vol.root, m.views, w, v);
  }

  lemma BeganThen(m: Mutator, d: Disk, s: Shape, rank: map<Lba, int>, writes: seq<Disk>)
    requires Orderly(d, m.vol.f, m.g, s, rank, m.vol.root) && m.BeganWith(d, s, writes, {})
    ensures Began(m, d, s, rank, writes, {})
  {
    hide Orderly, Mutator.BeganWith;
  }

  /** Where every file reads as it did and one of two trees is shown, one of two worlds is. */
  lemma OneOfTwo(trail: seq<Disk>, from: nat, f: Format, root: Lba, views: set<map<Lba, Fact>>, w: World, v: World)
    requires f.payload > 0 && Shown(trail, from, f, root, views) && views <= {w.tree, v.tree} && v.files == w.files
    requires forall i, k :: from <= i < |trail| && k in w.files ==> FileIs(trail[i], f, k, w.files[k])
    ensures forall i :: from <= i < |trail| ==> Realises(trail[i], f, root, w) || Realises(trail[i], f, root, v)
  {
    hide Shows, FileIs;
    forall i | from <= i < |trail|
      ensures Realises(trail[i], f, root, w) || Realises(trail[i], f, root, v)
    {
      assert ShowsOne(trail[i], f, root, views);
    }
  }

  lemma GrownIs(d: Disk, f: Format, g: Geometry, s: Shape, rank: map<Lba, int>, root: Lba)
    requires Orderly(d, f, g, s, rank, root)
    ensures Grown(d, s)
  {}

  lemma SameFiles(was: map<Lba, Fact>, now: map<Lba, Fact>, h: Lba, fact: Fact, intl: bool)
    requires now == was || (Created(was, now, h, fact, intl) && !fact.kind.File?)
    ensures FilesOf(now) == FilesOf(was)
  {}

  /** Nothing but what stood before and after was left. */
  lemma EitherLeft(f: Format, layoutPolicy: bool, root: Lba, w: World, c: Command, ok: bool, v: World,
          before: seq<Disk>, after: seq<Disk>)
    requires f.payload > 0 && before <= after && Follows(f, root, w, c, ok, v)
    requires forall i :: |before| <= i < |after| ==> Realises(after[i], f, root, w) || Realises(after[i], f, root, v)
    ensures Went(f, layoutPolicy, root, w, c, ok, v, before, after)
  {
    hide Does, Realises;
    forall i | |before| <= i < |after|
      ensures Left(f, layoutPolicy, root, w, c, after[i])
    {
      if v != w {
        var h :| Does(f, root, w, c, h, v);
        assert Midway(f, layoutPolicy, w, c, h, v, v);
      }
    }
  }

  /** What a create without contents made of the world. */
  lemma Entered(f: Format, root: Lba, w: World, c: Command, x: Lba, fact: Fact, r: Result<Lba, MutateError>,
          now: map<Lba, Fact>)
    requires c.NewFolder? || c.NewSoftLink? || c.NewHardLink?
    requires Leads(w.tree, f.intl, root, c.dir, x) && Outcome(w.tree, now, r, fact, f) && fact.dir == x
              && !fact.kind.File?
    requires match c
      case NewFolder(_, _, _, _) => fact.(dir := 0) == FactFor(c, Directory, 0, [])
      case NewSoftLink(_, _, _, _, path) => fact.(dir := 0) == FactFor(c, SoftLink, 0, path)
      case NewHardLink(_, _, _, _, target) =>
        exists t :: Leads(w.tree, f.intl, root, target, t) && Linkable(w.tree, t)
            && fact.(dir := 0) == FactFor(c, LinkKind(w.tree[t].kind), t, [])
      case _ => false
    ensures Follows(f, root, w, c, r.Ok?, World(now, w.files)) && FilesOf(now) == FilesOf(w.tree)
  {
    hide Leads, Created, Linkable, Midway;
    var v := World(now, w.files);
    if now != w.tree || r.Ok? {
      var h :| Created(w.tree, now, h, fact, f.intl);
      SameFiles(w.tree, now, h, fact, f.intl);
      assert fact.(dir := 0).(dir := x) == fact;
      assert Enters(w.tree, f, root, c.dir, fact.(dir := 0), h, now);
      assert Does(f, root, w, c, h, v);
    }
  }

  method MakeFolder(m: Mutator, c: Command, ghost w: World) returns (ok: bool, ghost v: World)
    requires m.Valid() && Models(m, w) && c.NewFolder?
    modifies m, m.vol.src, m.alloc
    ensures m.Valid() && Models(m, v)
    ensures Went(m.vol.f, m.layoutPolicy, m.vol.root, w, c, ok, v, old(m.vol.src.trail), m.vol.src.trail)
    ensures m.vol.f.slots > 0 && Accounts(m.vol.f, m.layoutPolicy, m.vol.root, w, c, ok, v, old(Now(m)), Now(m))
  {
    hide Mutator.Ready, Orderly, Mutation.Kept, Rooted, Tree, Images, Leads, Carries, Mutator.Handle, Realises,
      Outcome, FilesOf,
      Mutator.BeganWith, Went, Follows, Nameable, Enterable, Accounts, Stuck;
    Stays(m.vol.f, m.layoutPolicy, m.vol.root, w, c, m.vol.src.trail);
    OrderlyNow(m);
    var where := Where(m, c.dir, w);
    if where.None? {
      Lost(m.vol.f, m.layoutPolicy, m.vol.root, w, c, Now(m));
      return false, w;
    }
    ModelsTree(m, w);
    EnterIff(m, w, c, where.value);
    ghost var d, s, rank, writes, x := m.vol.src.blocks, m.shape, m.rank, m.vol.src.trail, Now(m);
    ImageFiles(d, m.vol.f, s, w);
    var r := CreateDir(m, where.value, c.name, c.note, c.meta);
    ok, v := r.Ok?, World(m.Entries(), w.files);
    Entered(m.vol.f, m.vol.root, w, c, where.value, FactFor(c, Directory, 0, []).(dir := where.value), r, m.Entries());
    FilesAre(d, m.vol.f, s, w);
    Carried(m, d, s, rank, writes, w, v);
    CreateAccounts(m.vol.f, m.layoutPolicy, m.vol.root, w, c, ok, v, x, Now(m));
    EitherLeft(m.vol.f, m.layoutPolicy, m.vol.root, w, c, ok, v, writes, m.vol.src.trail);
  }

  lemma OwnEntries(m: Mutator)
    requires m.Valid()
    ensures forall h :: h in m.Entries() ==> m.shape.Owns(h) && h != 0
  {
    hide Mutator.Ready, Orderly, Mutation.Kept, Rooted, Tree;
    OrderlyNow(m);
    EntriesHaveHeaders(m.vol.src.blocks, m.vol.f, m.g, m.shape, m.rank, m.vol.root);
  }

  lemma FilesAre(d: Disk, f: Format, s: Shape, w: World)
    requires f.payload > 0 && Images(d, f, s, w)
    ensures w.files.Keys == FilesOf(w.tree)
  {
    hide Tree, Stored;
  }

  method MakeSoftLink(m: Mutator, c: Command, ghost w: World) returns (ok: bool, ghost v: World)
    requires m.Valid() && Models(m, w) && c.NewSoftLink?
    modifies m, m.vol.src, m.alloc
    ensures m.Valid() && Models(m, v)
    ensures Went(m.vol.f, m.layoutPolicy, m.vol.root, w, c, ok, v, old(m.vol.src.trail), m.vol.src.trail)
    ensures m.vol.f.slots > 0 && Accounts(m.vol.f, m.layoutPolicy, m.vol.root, w, c, ok, v, old(Now(m)), Now(m))
  {
    hide Mutator.Ready, Orderly, Mutation.Kept, Rooted, Tree, Images, Leads, Carries, Mutator.Handle, Realises,
      Outcome, FilesOf,
      Mutator.BeganWith, Went, Follows, Nameable, Enterable, Accounts, Stuck;
    Stays(m.vol.f, m.layoutPolicy, m.vol.root, w, c, m.vol.src.trail);
    OrderlyNow(m);
    var where := Where(m, c.dir, w);
    if where.None? {
      Lost(m.vol.f, m.layoutPolicy, m.vol.root, w, c, Now(m));
      return false, w;
    }
    ModelsTree(m, w);
    EnterIff(m, w, c, where.value);
    ghost var d, s, rank, writes, x := m.vol.src.blocks, m.shape, m.rank, m.vol.src.trail, Now(m);
    FilesAre(d, m.vol.f, s, w);
    var r := CreateSoftlink(m, where.value, c.name, c.note, c.meta, c.path);
    ok, v := r.Ok?, World(m.Entries(), w.files);
    Entered(m.vol.f, m.vol.root, w, c, where.value, FactFor(c, SoftLink, 0, c.path).(dir := where.value), r,
        m.Entries());
    Carried(m, d, s, rank, writes, w, v);
    CreateAccounts(m.vol.f, m.layoutPolicy, m.vol.root, w, c, ok, v, x, Now(m));
    EitherLeft(m.vol.f, m.layoutPolicy, m.vol.root, w, c, ok, v, writes, m.vol.src.trail);
  }

  lemma AnyTarget(m: Mutator, x: Lba)
    requires m.Valid() && (x == m.vol.root || x in m.Entries())
    ensures LinkTarget(m, x)
  {
    hide Mutator.Ready, Orderly, Mutation.Kept;
    m.RootFacts();
  }

  method MakeHardLink(m: Mutator, c: Command, ghost w: World) returns (ok: bool, ghost v: World)
    requires m.Valid() && Models(m, w) && c.NewHardLink?
    modifies m, m.vol.src, m.alloc
    ensures m.Valid() && Models(m, v)
    ensures Went(m.vol.f, m.layoutPolicy, m.vol.root, w, c, ok, v, old(m.vol.src.trail), m.vol.src.trail)
    ensures m.vol.f.slots > 0 && Accounts(m.vol.f, m.layoutPolicy, m.vol.root, w, c, ok, v, old(Now(m)), Now(m))
  {
    hide Mutator.Ready, Orderly, Mutation.Kept, Rooted, Tree, Images, Leads, Carries, Mutator.Handle, Realises,
      Outcome, FilesOf,
      Mutator.BeganWith, Went, Follows,
      LinkTarget, JoinsLinks, Nameable, Enterable, Accounts, Stuck;
    Stays(m.vol.f, m.layoutPolicy, m.vol.root, w, c, m.vol.src.trail);
    OrderlyNow(m);
    var where := Where(m, c.dir, w);
    var what := Where(m, c.target, w);
    if where.None? || what.None? {
      Lost(m.vol.f, m.layoutPolicy, m.vol.root, w, c, Now(m));
      return false, w;
    }
    FoundOne(m, w, c.target, what.value);
    EnterIff(m, w, c, where.value);
    ModelsTree(m, w);
    AnyTarget(m, what.value);
    ghost var d, s, rank, writes, x := m.vol.src.blocks, m.shape, m.rank, m.vol.src.trail, Now(m);
    FilesAre(d, m.vol.f, s, w);
    var r := CreateHardlink(m, where.value, c.name, c.note, c.meta, what.value);
    ok, v := r.Ok?, World(m.Entries(), w.files);
    if Linkable(w.tree, what.value) {
      ghost var fact := FactFor(c, LinkKind(w.tree[what.value].kind), what.value, []);
      Entered(m.vol.f, m.vol.root, w, c, where.value, fact.(dir := where.value), r, m.Entries());
    } else {
      NothingDone(m.vol.f, m.vol.root, w, c, v);
    }
    Carried(m, d, s, rank, writes, w, v);
    CreateAccounts(m.vol.f, m.layoutPolicy, m.vol.root, w, c, ok, v, x, Now(m));
    EitherLeft(m.vol.f, m.layoutPolicy, m.vol.root, w, c, ok, v, writes, m.vol.src.trail);
  }

  lemma NothingDone(f: Format, root: Lba, w: World, c: Command, v: World)
    requires v == w
    ensures Follows(f, root, w, c, false, v)
  {}

  method MakeFile(m: Mutator, c: Command, ghost w: World) returns (ok: bool, ghost v: World)
    requires m.Valid() && Models(m, w) && c.NewFile? && Sane(c)
    modifies m, m.vol.src, m.alloc
    ensures m.Valid() && Models(m, v)
    ensures Went(m.vol.f, m.layoutPolicy, m.vol.root, w, c, ok, v, old(m.vol.src.trail), m.vol.src.trail)
    ensures m.vol.f.slots > 0 && Accounts(m.vol.f, m.layoutPolicy, m.vol.root, w, c, ok, v, old(Now(m)), Now(m))
  {
    hide Mutator.Ready, Orderly, Mutation.Kept, Rooted, Tree, Images, Leads, Mutator.Handle, Realises, Outcome,
      FilesOf, Went, Follows,
      OthersRead, StillThere, BornWhole, Stored, FileIs, Created, Nameable, Enterable, Accounts, Stuck;
    Stays(m.vol.f, m.layoutPolicy, m.vol.root, w, c, m.vol.src.trail);
    OrderlyNow(m);
    var where := Where(m, c.dir, w);
    if where.None? {
      Lost(m.vol.f, m.layoutPolicy, m.vol.root, w, c, Now(m));
      return false, w;
    }
    ModelsTree(m, w);
    EnterIff(m, w, c, where.value);
    ghost var d, s, writes, x := m.vol.src.blocks, m.shape, m.vol.src.trail, Now(m);
    var r;
    ghost var h;
    r, h := CreateFile(m, where.value, c.name, c.note, c.meta, c.data);
    ok, v := r.Ok?, if m.Entries() == w.tree then w else World(m.Entries(), w.files[h := c.data]);
    ghost var fact := FactFor(c, File, 0, []).(dir := where.value);
    OwnEntries(m);
    Born(d, m.vol.f, m.vol.root, s, w, c, where.value, fact, h, r, m.vol.src.blocks, m.shape, v);
    CreateAccounts(m.vol.f, m.layoutPolicy, m.vol.root, w, c, ok, v, x, Now(m));
    BornLeft(d, m.vol.f, m.layoutPolicy, s, w, c, ok, v, h, writes, m.vol.src.trail, m.vol.root, m.Entries());
  }

  /** What a create with contents made of the world. */
  lemma Born(d: Disk, f: Format, root: Lba, s: Shape, w: World, c: Command, x: Lba, fact: Fact, h: Lba, r: Result<Lba,
          MutateError>, e: Disk, t: Shape, v: World)
    requires f.payload > 0 && Images(d, f, s, w) && c.NewFile? && Leads(w.tree, f.intl, root, c.dir, x)
              && fact == FactFor(c, File, 0, []).(dir := x)
    requires Outcome(w.tree, Tree(e, t), r, fact, f) && (r.Ok? ==> r.value == h) && StillThere(d, f, s, 0, e, t)
              && !s.Owns(h)
    requires Tree(e, t) == w.tree || Created(w.tree, Tree(e, t), h, fact, f.intl)
    requires h in Tree(e, t) ==> t.Owns(h) && h != 0 && Stored(e, f, h, c.data)
    requires v == if Tree(e, t) == w.tree then w else World(Tree(e, t), w.files[h := c.data])
    ensures Images(e, f, t, v) && Follows(f, root, w, c, r.Ok?, v)
  {
    ImageFiles(d, f, s, w);
    hide Leads, Tree, Stored, FileIs, StillThere, Midway;
    var now := Tree(e, t);
    if now == w.tree {
      NextImage(d, f, s, w, 0, 0, e, t, v);
    } else {
      NewcomerImage(d, f, s, w, h, e, t, v);
      assert FactFor(c, File, 0, []).(dir := x) == fact;
      assert Enters(w.tree, f, root, c.dir, FactFor(c, File, 0, []), h, now);
      assert Does(f, root, w, c, h, v);
    }
  }

  lemma NewcomerImage(d: Disk, f: Format, s: Shape, w: World, h: Lba, e: Disk, t: Shape, v: World)
    requires f.payload > 0 && Images(d, f, s, w) && StillThere(d, f, s, 0, e, t) && v.tree == Tree(e, t)
    requires h !in w.tree && h in v.tree && v.tree == w.tree[h := v.tree[h]] && v.tree[h].kind.File?
    requires h in v.files && v.files == w.files[h := v.files[h]] && h != 0 && t.Owns(h) && Stored(e, f, h, v.files[h])
    ensures Images(e, f, t, v)
  {
    hide Tree, Stored, FileIs;
    NextImage(d, f, s, w, 0, h, e, t, v);
  }

  /** A create leaves the world before it or the one after it. */
  lemma BornLeft(d: Disk, f: Format, layoutPolicy: bool, s: Shape, w: World, c: Command, ok: bool, v: World, h: Lba,
          before: seq<Disk>, after: seq<Disk>, root: Lba, now: map<Lba, Fact>)
    requires f.payload > 0 && Images(d, f, s, w) && before <= after && Follows(f, root, w, c, ok, v) && !s.Owns(h)
              && c.NewFile? && |c.data| <= MAX_SIZE
    requires OthersRead(d, f, s, h, after, |before|)
    requires BornWhole(after, |before|, f, root, w.tree, now, h, c.data)
              && v == if now == w.tree then w else World(now, w.files[h := c.data])
    ensures Went(f, layoutPolicy, root, w, c, ok, v, before, after)
  {
    hide Shows, Stored, FileIs, Images, OthersRead, Follows, Went, Tree;
    NotAFileYet(d, f, s, w, h);
    OthersAreRead(d, f, s, w, h, after, |before|);
    forall i | |before| <= i < |after|
      ensures Realises(after[i], f, root, w) || Realises(after[i], f, root, v)
    {
      assert BornIn(after[i], f, root, w.tree, now, h, c.data);
      if Stored(after[i], f, h, c.data) { StoredIsRead(after[i], f, h, c.data); }
    }
    EitherLeft(f, layoutPolicy, root, w, c, ok, v, before, after);
  }

  lemma NotAFileYet(d: Disk, f: Format, s: Shape, w: World, h: Lba)
    requires f.payload > 0 && Images(d, f, s, w) && !s.Owns(h)
    ensures h !in w.files
  {
    hide Stored, Tree;
  }

  // ---- Edits -------------------------------------------------------------------------------------------

  /** What the file a name stands for holds. */
  lemma ContentAt(m: Mutator, w: World, dir: Lba, name: Bytes) returns (s: Bytes)
    requires m.Valid() && Models(m, w)
    ensures Known(m, dir, name, s)
    ensures forall h :: Filed(w.tree, m.vol.f.intl, dir, name, h) && h in w.files ==> w.files[h] == s
  {
    ModelsTree(m, w);
    m.InOrderNow();
    NamesAreUnique(m.vol.src.blocks, m.vol.f, m.shape, m.rank);
    hide Mutator.Valid, Tree, Stored, SameName, InOrder;
    s := [];
    if h :| Filed(w.tree, m.vol.f.intl, dir, name, h) && w.tree[h].kind.File? {
      assert h in FilesOf(w.tree);
      s := w.files[h];
    }
  }

  /** The world an edit of file `h` left. */
  lemma EditFollows(d: Disk, f: Format, root: Lba, s: Shape, w: World, c: Command, x: Lba, h: Lba, ok: bool, e: Disk,
          t: Shape, v: World)
    requires f.payload > 0 && Images(d, f, s, w) && IsEdit(c) && Leads(w.tree, f.intl, root, c.dir, x)
    requires Tree(e, t) == w.tree && StillThere(d, f, s, h, e, t)
    requires h != 0 ==> Filed(w.tree, f.intl, x, c.name, h) && h in w.files && t.Owns(h)
    requires ok ==> h != 0 && Stored(e, f, h, Made(c, w.files[h]))
    requires !ok && h != 0 ==> Stored(e, f, h, w.files[h]) || (f.dircache && Stored(e, f, h, Made(c, w.files[h])))
    requires v == if h == 0 || (!ok && Stored(e, f, h, w.files[h])) then w
              else World(w.tree, w.files[h := Made(c, w.files[h])])
    ensures Images(e, f, t, v) && Follows(f, root, w, c, ok, v)
  {
    hide Tree, Stored, FileIs, StillThere, Leads, Made, Filed, Does, FilesOf, Images;
    ImageFiles(d, f, s, w);
    FilesAre(d, f, s, w);
    NextImage(d, f, s, w, h, h, e, t, v);
    if h != 0 { EditDoes(f, root, w, c, x, h); }
  }

  lemma EditDoes(f: Format, root: Lba, w: World, c: Command, x: Lba, h: Lba)
    requires IsEdit(c) && Leads(w.tree, f.intl, root, c.dir, x) && Filed(w.tree, f.intl, x, c.name, h) && h in w.files
    ensures Does(f, root, w, c, h, World(w.tree, w.files[h := Made(c, w.files[h])]))
  {
    hide Leads, Filed, Edited, Resized;
    assert Means(w, f, root, c.dir, c.name, h);
  }

  /** What a crash leaves of an edit. */
  lemma EditLeft(d: Disk, f: Format, layoutPolicy: bool, root: Lba, s: Shape, w: World, c: Command, x: Lba, h: Lba,
          ok: bool, v: World, before: seq<Disk>, after: seq<Disk>)
    requires f.payload > 0 && Images(d, f, s, w) && IsEdit(c) && Leads(w.tree, f.intl, root, c.dir, x)
    requires before <= after && OthersRead(d, f, s, h, after, |before|) && Shown(after, |before|, f, root, {w.tree})
    requires h != 0 ==> Filed(w.tree, f.intl, x, c.name, h) && h in w.files
    requires h != 0 ==>
              CrashesLeave(after, |before|, f, h, w.files[h], Made(c, w.files[h]),
              KeptBy(f, layoutPolicy, c, |w.files[h]|))
    requires Follows(f, root, w, c, ok, v)
    ensures Went(f, layoutPolicy, root, w, c, ok, v, before, after)
  {
    ImageFiles(d, f, s, w);
    OthersAreRead(d, f, s, w, h, after, |before|);
    hide Leads, Filed, Edited, Resized, Images, OthersRead, Shown, Stored, FileIs, Shows, Does, Follows, Torn,
      Overlaid, Made, OldOrNew, Midway, Left, KeptBy;
    forall i | |before| <= i < |after|
      ensures Left(f, layoutPolicy, root, w, c, after[i])
    {
      OnlyView(after, i, |before|, f, root, w.tree);
      if h == 0 {
        AsItWas(f, layoutPolicy, root, w, c, after[i]);
      } else {
        assert OldOrNew(after[i], f, h, w.files[h], Made(c, w.files[h]), KeptBy(f, layoutPolicy, c, |w.files[h]|));
        EditDoes(f, root, w, c, x, h);
        OldOrNewLeft(f, layoutPolicy, root, w, c, h, after[i]);
      }
    }
  }

  lemma AsItWas(f: Format, layoutPolicy: bool, root: Lba, w: World, c: Command, e: Disk)
    requires f.payload > 0 && Realises(e, f, root, w)
    ensures Left(f, layoutPolicy, root, w, c, e)
  {}

  lemma OldOrNewLeft(f: Format, layoutPolicy: bool, root: Lba, w: World, c: Command, h: Lba, e: Disk)
    requires f.payload > 0 && IsEdit(c) && h in w.files && Shows(e, f, root, w.tree)
    requires forall k :: k in w.files && k != h ==> FileIs(e, f, k, w.files[k])
    requires Does(f, root, w, c, h, World(w.tree, w.files[h := Made(c, w.files[h])]))
    requires OldOrNew(e, f, h, w.files[h], Made(c, w.files[h]), KeptBy(f, layoutPolicy, c, |w.files[h]|))
    ensures Left(f, layoutPolicy, root, w, c, e)
  {
    hide Stored, FileIs, Shows, Does, Torn, Overlaid, Made, Chosen;
    var was, u := w.files[h], Made(c, w.files[h]);
    var v := World(w.tree, w.files[h := u]);
    if Stored(e, f, h, u) {
      StoredIsRead(e, f, h, u);
      assert Midway(f, layoutPolicy, w, c, h, v, v) && Realises(e, f, root, v);
    } else {
      var i: nat, n: nat :| i <= KeptBy(f, layoutPolicy, c, |was|) && StartsAt(n, i, f.payload)
          && Stored(e, f, h, Torn(was, Overlaid(was, u), n));
      StoredIsRead(e, f, h, Torn(was, Overlaid(was, u), n));
      var x := World(w.tree, w.files[h := Torn(was, Overlaid(was, u), n)]);
      if c.WriteAt? {
        assert Tears(f, layoutPolicy, w, c, h, x);
        assert Midway(f, layoutPolicy, w, c, h, v, x) && Realises(e, f, root, x);
      } else {
        TornAtZero(was, Overlaid(was, u), n, f.payload);
        assert Realises(e, f, root, w);
      }
    }
  }

  lemma NotTornIsWhole(trail: seq<Disk>, from: nat, f: Format, h: Lba, s: Bytes, u: Bytes)
    requires f.payload > 0 && AllOrNothing(trail, from, f, h, s, u)
    ensures CrashesLeave(trail, from, f, h, s, u, 0)
  {
    hide Stored;
    forall i | from <= i < |trail|
      ensures OldOrNew(trail[i], f, h, s, u, 0)
    {
      assert StartsAt(0, 0, f.payload) && Torn(s, Overlaid(s, u), 0) == s;
    }
  }

  /** Run one of the three. */
  method Edit(m: Mutator, c: Command, dir: Lba, ghost s: Bytes) returns (ok: bool, ghost h: Lba)
    requires m.Valid() && m.vol.f.payload > 0 && m.vol.f.slots > 0 && IsEdit(c) && m.Handle(dir)
              && Known(m, dir, c.name, s)
    modifies m, m.vol.src, m.alloc
    ensures m.Valid() && m.Entries() == old(m.Entries()) && old(m.vol.src.trail) <= m.vol.src.trail
    ensures StillThere(old(m.vol.src.blocks), m.vol.f, old(m.shape), h, m.vol.src.blocks, m.shape)
    ensures OthersRead(old(m.vol.src.blocks), m.vol.f, old(m.shape), h, m.vol.src.trail, |old(m.vol.src.trail)|)
    ensures Shown(m.vol.src.trail, |old(m.vol.src.trail)|, m.vol.f, m.vol.root, {m.Entries()})
    ensures h == 0 ==> !ok
    ensures h != 0 ==> Filed(m.Entries(), m.vol.f.intl, dir, c.name, h) && m.Entries()[h].kind.File?
    ensures ok ==> Stored(m.vol.src.blocks, m.vol.f, h, Made(c, s))
    ensures !ok ==> Unedited(m, h, s, Made(c, s))
    ensures h != 0 ==>
              CrashesLeave(m.vol.src.trail, |old(m.vol.src.trail)|, m.vol.f, h, s, Made(c, s),
              KeptBy(m.vol.f, m.layoutPolicy, c, |s|))
    ensures !ok && !m.vol.f.dircache ==>
              m.alloc.Free() == if old(MayEdit(m, dir, c.name, |Made(c, s)|, 0)) then {} else old(m.alloc.Free())
    ensures ok && !m.vol.f.dircache ==>
              |m.alloc.Free()| + Footprint(m.vol.f, |Made(c, s)|) == |old(m.alloc.Free())| + Footprint(m.vol.f, |s|)
    ensures !m.vol.f.dircache ==>
              (ok <==> old(MayEdit(m, dir, c.name, |Made(c, s)|, DrawsOf(m.vol.f, m.layoutPolicy, c, |s|))))
  {
    hide Mutator.Valid, Mutator.Handle, Known, Tree, StillThere, OthersRead, Shown, SameName, Stored, Edited, Resized,
      MayEdit, Draws, Chosen, Torn,
      CrashesLeave, AllOrNothing, Footprint;
    var r;
    match c {
      case WriteAt(_, name, offset, data) =>
        r, h := WriteFile(m, dir, name, offset, data, s);
        ok := r.Ok?;
      case Extend(_, name, data) =>
        r, h := Append(m, dir, name, data, s);
        ok := r.Ok?;
        if h != 0 { NotTornIsWhole(m.vol.src.trail, |old(m.vol.src.trail)|, m.vol.f, h, s, Made(c, s)); }
      case Resize(_, name, size) =>
        var t;
        t, h := Truncate(m, dir, name, size, s);
        ok := t.Ok?;
        if h != 0 { NotTornIsWhole(m.vol.src.trail, |old(m.vol.src.trail)|, m.vol.f, h, s, Made(c, s)); }
    }
    OwnEntries(m);
  }

  /** What an edit needs, said of the world. */
  lemma EditIff(m: Mutator, w: World, c: Command, x: Lba, s: Bytes)
    requires m.Valid() && Models(m, w) && IsEdit(c) && Found(m.vol.f, m.vol.root, w, c.dir, x) && m.vol.f.slots > 0
    requires forall h :: Filed(w.tree, m.vol.f.intl, x, c.name, h) && h in w.files ==> w.files[h] == s
    ensures MayEdit(m, x, c.name, |Made(c, s)|, 0) <==> Proper(m.vol.f, m.vol.root, w, c)
    ensures MayEdit(m, x, c.name, |Made(c, s)|, DrawsOf(m.vol.f, m.layoutPolicy, c, |s|)) <==>
              Allows(m.vol.f, m.layoutPolicy, m.vol.root, w, Now(m), c)
  {
    hide Mutator.Valid, Tree, Leads, Stuck, Found, Images, Filed, Made, DrawsOf, Editable;
    FoundOne(m, w, c.dir, x);
    ModelsTree(m, w);
    ImageFiles(m.vol.src.blocks, m.vol.f, m.shape, w);
    forall h
      ensures Editable(m.vol.f, m.vol.root, w, c, h) <==>
                Filed(w.tree, m.vol.f.intl, x, c.name, h) && h in w.files && |c.name| <= MaxName(m.vol.f)
                    && |Made(c, s)| <= MAX_SIZE
    {
      EditableIs(m.vol.f, m.vol.root, w, c, x, h, s);
    }
    FiledIsThere(w.tree, m.vol.f.intl, x, c.name);
  }

  lemma FiledIsThere(tree: map<Lba, Fact>, intl: bool, dir: Lba, name: Bytes)
    ensures forall h :: Filed(tree, intl, dir, name, h) ==> h in tree
  {}

  lemma EditableIs(f: Format, root: Lba, w: World, c: Command, x: Lba, h: Lba, s: Bytes)
    requires IsEdit(c) && Found(f, root, w, c.dir, x) && forall y :: Found(f, root, w, c.dir, y) ==> y == x
    requires Filed(w.tree, f.intl, x, c.name, h) && h in w.files ==> w.files[h] == s
    ensures Editable(f, root, w, c, h) <==>
              Filed(w.tree, f.intl, x, c.name, h) && h in w.files && |c.name| <= MaxName(f) && |Made(c, s)| <= MAX_SIZE
  {
    hide Found, Made, SameName;
  }

  /** The account of an edit. */
  lemma EditAccounts(f: Format, layoutPolicy: bool, root: Lba, w: World, c: Command, at: Lba, h: Lba, ok: bool,
          v: World, x: Snapshot, y: Snapshot)
    requires f.payload > 0 && f.slots > 0 && IsEdit(c) && Leads(w.tree, f.intl, root, c.dir, at)
    requires ok ==>
               Filed(w.tree, f.intl, at, c.name, h) && h in w.files
               && v == World(w.tree, w.files[h := Made(c, w.files[h])])
    requires !f.dircache ==> (ok <==> Allows(f, layoutPolicy, root, w, x, c))
    requires !f.dircache && !ok ==> y.free == if Proper(f, root, w, c) then {} else x.free
    requires !f.dircache && ok ==> Trades(f, w, c, h, |x.free|, |y.free|)
    ensures Accounts(f, layoutPolicy, root, w, c, ok, v, x, y)
  {
    hide Leads, Filed, Made, Does, Allows, Proper, Trades;
    if ok {
      EditDoes(f, root, w, c, at, h);
    }
  }

  method EditFileOf(m: Mutator, c: Command, ghost w: World) returns (ok: bool, ghost v: World)
    requires m.Valid() && Models(m, w) && IsEdit(c)
    modifies m, m.vol.src, m.alloc
    ensures m.Valid() && Models(m, v)
    ensures Went(m.vol.f, m.layoutPolicy, m.vol.root, w, c, ok, v, old(m.vol.src.trail), m.vol.src.trail)
    ensures m.vol.f.slots > 0 && Accounts(m.vol.f, m.layoutPolicy, m.vol.root, w, c, ok, v, old(Now(m)), Now(m))
  {
    hide Mutator.Valid, Tree, Images, Leads, Mutator.Handle, Went, Follows, OthersRead, StillThere, Stored, Known,
      Shown, SameName, Made, MayEdit, DrawsOf, Stuck,
      Allows, Proper, Accounts, Footprint, CrashesLeave;
    Stays(m.vol.f, m.layoutPolicy, m.vol.root, w, c, m.vol.src.trail);
    OrderlyNow(m);
    var where := Where(m, c.dir, w);
    if where.None? {
      Lost(m.vol.f, m.layoutPolicy, m.vol.root, w, c, Now(m));
      return false, w;
    }
    ModelsTree(m, w);
    ghost var d, s, writes, x := m.vol.src.blocks, m.shape, m.vol.src.trail, Now(m);
    ghost var was := ContentAt(m, w, where.value, c.name);
    ImageFiles(d, m.vol.f, s, w);
    EditIff(m, w, c, where.value, was);
    ghost var h;
    ok, h := Edit(m, c, where.value, was);
    OwnEntries(m);
    v := if h == 0 || (!ok && Stored(m.vol.src.blocks, m.vol.f, h, was)) then w
        else World(w.tree, w.files[h := Made(c, was)]);
    EditFollows(d, m.vol.f, m.vol.root, s, w, c, where.value, h, ok, m.vol.src.blocks, m.shape, v);
    EditAccounts(m.vol.f, m.layoutPolicy, m.vol.root, w, c, where.value, h, ok, v, x, Now(m));
    EditLeft(d, m.vol.f, m.layoutPolicy, m.vol.root, s, w, c, where.value, h, ok, v, writes, m.vol.src.trail);
  }

  // ---- Moves, updates, deletes -------------------------------------------------------------------------

  /** The account of a command that draws no block, or one, or as many as it gives back. */
  lemma OtherAccounts(f: Format, layoutPolicy: bool, root: Lba, w: World, c: Command, h: Lba, ok: bool, v: World,
          x: Snapshot, y: Snapshot)
    requires f.payload > 0 && f.slots > 0 && (c.Move? || c.Describe? || c.Remove? || c.Tidy?)
    requires ok ==> Does(f, root, w, c, h, v)
    requires !f.dircache ==> (ok <==> Allows(f, layoutPolicy, root, w, x, c))
    requires !f.dircache && !ok ==> y.free == if Proper(f, root, w, c) then {} else x.free
    requires !f.dircache && ok ==> Costs(f, w, c, h, x, y)
    ensures Accounts(f, layoutPolicy, root, w, c, ok, v, x, y)
  {
    hide Does, Allows, Proper, Costs;
  }

  lemma SameKinds(was: map<Lba, Fact>, h: Lba, fact: Fact)
    requires h in was && fact.kind == was[h].kind
    ensures FilesOf(was[h := fact]) == FilesOf(was)
  {}

  /** The world a move left, if it came to anything. */
  lemma MoveFollows(d: Disk, f: Format, root: Lba, s: Shape, w: World, c: Command, x: Lba, y: Lba, h: Lba, ok: bool,
          e: Disk, t: Shape, v: World)
    requires f.payload > 0 && Images(d, f, s, w) && c.Move? && Leads(w.tree, f.intl, root, c.dir, x)
              && Leads(w.tree, f.intl, root, c.newDir, y)
    requires StillThere(d, f, s, 0, e, t) && v == World(Tree(e, t), w.files)
    requires if h == 0 then !ok && v.tree == w.tree
             else
               (!ok ==> f.dircache) && Filed(w.tree, f.intl, x, c.name, h)
               && v.tree == w.tree[h := w.tree[h].(dir := y, name := c.newName)]
    ensures Images(e, f, t, v) && Follows(f, root, w, c, ok, v) && (h != 0 ==> Does(f, root, w, c, h, v))
  {
    hide Tree, Stored, FileIs, StillThere, Leads, SameName, Images, FilesOf, Does;
    ImageFiles(d, f, s, w);
    FilesAre(d, f, s, w);
    if h != 0 {
      SameKinds(w.tree, h, w.tree[h].(dir := y, name := c.newName));
      MoveDoes(f, root, w, c, x, y, h, v);
    } else {
      assert v == w;
    }
    NextImage(d, f, s, w, 0, 0, e, t, v);
  }

  lemma MoveDoes(f: Format, root: Lba, w: World, c: Command, x: Lba, y: Lba, h: Lba, v: World)
    requires c.Move? && Leads(w.tree, f.intl, root, c.dir, x) && Leads(w.tree, f.intl, root, c.newDir, y)
              && Filed(w.tree, f.intl, x, c.name, h)
    requires v == World(w.tree[h := w.tree[h].(dir := y, name := c.newName)], w.files)
    ensures Does(f, root, w, c, h, v)
  {
    hide Leads, SameName;
    assert Means(w, f, root, c.dir, c.name, h);
  }

  lemma MidwayLeft(f: Format, layoutPolicy: bool, root: Lba, w: World, c: Command, h: Lba, v: World, x: World, e: Disk)
    requires f.payload > 0 && Does(f, root, w, c, h, v) && Midway(f, layoutPolicy, w, c, h, v, x)
              && Realises(e, f, root, x)
    ensures Left(f, layoutPolicy, root, w, c, e)
  {
    hide Does, Midway, Realises;
  }

  /** What a crash leaves of a move: everything readable, the entry for two writes nowhere. */
  lemma MoveLeft(d: Disk, f: Format, layoutPolicy: bool, root: Lba, s: Shape, w: World, c: Command, h: Lba, v: World,
          ok: bool, before: seq<Disk>, after: seq<Disk>)
    requires f.payload > 0 && Images(d, f, s, w) && c.Move? && before <= after
              && OthersRead(d, f, s, 0, after, |before|)
    requires Follows(f, root, w, c, ok, v) && v.files == w.files
    requires if h == 0 then Shown(after, |before|, f, root, {w.tree})
             else Does(f, root, w, c, h, v) && AwayForTwo(after, |before|, f, root, w.tree, h, v.tree)
    ensures Went(f, layoutPolicy, root, w, c, ok, v, before, after)
  {
    hide Tree, Stored, FileIs, Images, OthersRead, Does, Shows, Midway, Left, Follows;
    ImageFiles(d, f, s, w);
    OthersAreRead(d, f, s, w, 0, after, |before|);
    forall i | |before| <= i < |after|
      ensures Left(f, layoutPolicy, root, w, c, after[i])
    {
      if h == 0 {
        OnlyView(after, i, |before|, f, root, w.tree);
        AsItWas(f, layoutPolicy, root, w, c, after[i]);
      } else {
        MoveState(f, layoutPolicy, root, w, c, h, v, after, |before|, i);
      }
    }
  }

  lemma MoveState(f: Format, layoutPolicy: bool, root: Lba, w: World, c: Command, h: Lba, v: World, after: seq<Disk>,
          from: nat, i: nat)
    requires f.payload > 0 && c.Move? && from <= i < |after| && v.files == w.files && Does(f, root, w, c, h, v)
    requires AwayForTwo(after, from, f, root, w.tree, h, v.tree) && forall k :: k in w.files ==>
              FileIs(after[i], f, k, w.files[k])
    ensures Left(f, layoutPolicy, root, w, c, after[i])
  {
    hide FileIs, Shows, Does, Shown, Left;
    var at: nat :| from <= at < |after| - 2 && AwayAt(after, from, at, f, root, w.tree, h, v.tree);
    if i < at {
      assert after[..at][i] == after[i];
      OnlyView(after[..at], i, from, f, root, w.tree);
      AsItWas(f, layoutPolicy, root, w, c, after[i]);
    } else if i < at + 2 {
      MidwayLeft(f, layoutPolicy, root, w, c, h, v, World(w.tree - {h}, w.files), after[i]);
    } else {
      OnlyView(after, i, at + 2, f, root, v.tree);
      MidwayLeft(f, layoutPolicy, root, w, c, h, v, v, after[i]);
    }
  }

  method MoveIt(m: Mutator, c: Command, ghost w: World) returns (ok: bool, ghost v: World)
    requires m.Valid() && Models(m, w) && c.Move?
    modifies m, m.vol.src, m.alloc
    ensures m.Valid() && Models(m, v)
    ensures Went(m.vol.f, m.layoutPolicy, m.vol.root, w, c, ok, v, old(m.vol.src.trail), m.vol.src.trail)
    ensures m.vol.f.slots > 0 && Accounts(m.vol.f, m.layoutPolicy, m.vol.root, w, c, ok, v, old(Now(m)), Now(m))
  {
    hide Mutator.Valid, Tree, Images, Leads, Mutator.Handle, Went, Follows, OthersRead, StillThere, Shown, SameName,
      AwayForTwo, MayMove,
      Taken, NotesBalance, MirrorsBut, NameOk, Stuck;
    Stays(m.vol.f, m.layoutPolicy, m.vol.root, w, c, m.vol.src.trail);
    OrderlyNow(m);
    var here := Where(m, c.dir, w);
    var there := Where(m, c.newDir, w);
    if here.None? || there.None? {
      Lost(m.vol.f, m.layoutPolicy, m.vol.root, w, c, Now(m));
      return false, w;
    }
    MoveAllowed(m, w, c, here.value, there.value);
    ModelsTree(m, w);
    ghost var d, s, writes, x := m.vol.src.blocks, m.shape, m.vol.src.trail, Now(m);
    var r;
    ghost var h;
    r, h := Rename(m, here.value, c.name, there.value, c.newName);
    ok, v := r.Ok?, World(m.Entries(), w.files);
    MoveFollows(d, m.vol.f, m.vol.root, s, w, c, here.value, there.value, h, ok, m.vol.src.blocks, m.shape, v);
    OtherAccounts(m.vol.f, m.layoutPolicy, m.vol.root, w, c, h, ok, v, x, Now(m));
    MoveLeft(d, m.vol.f, m.layoutPolicy, m.vol.root, s, w, c, h, v, ok, writes, m.vol.src.trail);
  }

  /** The world an update left. */
  lemma UpdateFollows(d: Disk, f: Format, root: Lba, s: Shape, w: World, c: Command, h: Lba, ok: bool, e: Disk,
          t: Shape, v: World)
    requires f.payload > 0 && Images(d, f, s, w) && c.Describe? && Leads(w.tree, f.intl, root, c.what, h)
    requires StillThere(d, f, s, 0, e, t) && v == World(Tree(e, t), w.files)
    requires ok ==> h in w.tree && v.tree == w.tree[h := Updated(w.tree[h], c.update)]
    requires !ok && v.tree != w.tree ==>
              f.dircache && h in w.tree && v.tree == w.tree[h := Updated(w.tree[h], c.update)]
    ensures Images(e, f, t, v) && Follows(f, root, w, c, ok, v) && (ok ==> Does(f, root, w, c, h, v))
  {
    hide Tree, Stored, FileIs, StillThere, Leads, Images, FilesOf;
    ImageFiles(d, f, s, w);
    FilesAre(d, f, s, w);
    if h in w.tree { SameKinds(w.tree, h, Updated(w.tree[h], c.update)); }
    if ok || v.tree != w.tree { assert Does(f, root, w, c, h, v); }
    NextImage(d, f, s, w, 0, 0, e, t, v);
  }

  /** What a crash leaves of an update. */
  lemma UpdateLeft(d: Disk, f: Format, layoutPolicy: bool, root: Lba, s: Shape, w: World, c: Command, h: Lba,
          v: World, ok: bool, before: seq<Disk>, after: seq<Disk>, views: set<map<Lba, Fact>>)
    requires f.payload > 0 && Images(d, f, s, w) && c.Describe? && Leads(w.tree, f.intl, root, c.what, h)
    requires before <= after && OthersRead(d, f, s, 0, after, |before|) && Follows(f, root, w, c, ok, v)
              && v.files == w.files
    requires Shown(after, |before|, f, root, views)
    requires if h in w.tree then views <= {w.tree, w.tree[h := w.tree[h].(comment := Remark(w.tree[h], c.update))],
              v.tree} else views <= {w.tree}
    requires h in w.tree ==> v.tree == w.tree || v.tree == w.tree[h := Updated(w.tree[h], c.update)]
    ensures Went(f, layoutPolicy, root, w, c, ok, v, before, after)
  {
    hide Tree, Stored, FileIs, Images, OthersRead, Shows, Left, Leads, Follows;
    ImageFiles(d, f, s, w);
    OthersAreRead(d, f, s, w, 0, after, |before|);
    forall i | |before| <= i < |after|
      ensures Left(f, layoutPolicy, root, w, c, after[i])
    {
      assert ShowsOne(after[i], f, root, views);
      var tree :| tree in views && Shows(after[i], f, root, tree);
      if tree == w.tree {
        AsItWas(f, layoutPolicy, root, w, c, after[i]);
      } else {
        var u := World(w.tree[h := Updated(w.tree[h], c.update)], w.files);
        assert Does(f, root, w, c, h, u);
        MidwayLeft(f, layoutPolicy, root, w, c, h, u, World(tree, w.files), after[i]);
      }
    }
  }

  lemma AnyEntry(m: Mutator, x: Lba)
    requires m.Valid() && (x == m.vol.root || x in m.Entries())
    ensures x == m.vol.root ==> x !in m.Entries()
  {
    EntriesAreNoOrphans(m);
  }

  method DescribeIt(m: Mutator, c: Command, ghost w: World) returns (ok: bool, ghost v: World)
    requires m.Valid() && Models(m, w) && c.Describe?
    modifies m, m.vol.src, m.alloc
    ensures m.Valid() && Models(m, v)
    ensures Went(m.vol.f, m.layoutPolicy, m.vol.root, w, c, ok, v, old(m.vol.src.trail), m.vol.src.trail)
    ensures m.vol.f.slots > 0 && Accounts(m.vol.f, m.layoutPolicy, m.vol.root, w, c, ok, v, old(Now(m)), Now(m))
  {
    hide Mutator.Valid, Tree, Images, Leads, Mutator.Handle, Went, Follows, OthersRead, StillThere, Shown, MixesAt,
      SomeHalfWay, NoteFits,
      NotesBalance, Mirrors;
    Stays(m.vol.f, m.layoutPolicy, m.vol.root, w, c, m.vol.src.trail);
    OrderlyNow(m);
    var what := Where(m, c.what, w);
    if what.None? {
      Lost(m.vol.f, m.layoutPolicy, m.vol.root, w, c, Now(m));
      return false, w;
    }
    var h := what.value;
    RestAllowed(m, w, c, h);
    ModelsTree(m, w);
    AnyEntry(m, h);
    ghost var d, s, writes, x, mixes := m.vol.src.blocks, m.shape, m.vol.src.trail, Now(m), MixesAt(m, h, c.update);
    MixesAnEntry(m, h, c.update);
    var r := SetMetadata(m, h, c.update);
    ok, v := r.Ok?, World(m.Entries(), w.files);
    ghost var views := if mixes then {w.tree, w.tree[h := w.tree[h].(comment := Remark(w.tree[h], c.update))], v.tree}
        else {w.tree, v.tree};
    UpdateFollows(d, m.vol.f, m.vol.root, s, w, c, h, ok, m.vol.src.blocks, m.shape, v);
    OtherAccounts(m.vol.f, m.layoutPolicy, m.vol.root, w, c, h, ok, v, x, Now(m));
    UpdateLeft(d, m.vol.f, m.layoutPolicy, m.vol.root, s, w, c, h, v, ok, writes, m.vol.src.trail, views);
  }

  lemma MixesAnEntry(m: Mutator, h: Lba, u: Update)
    ensures MixesAt(m, h, u) ==> h in m.Entries()
  {}

  /** The world a delete left. */
  lemma DeleteFollows(d: Disk, f: Format, root: Lba, s: Shape, w: World, c: Command, x: Lba, h: Lba, ok: bool, e: Disk,
          t: Shape, v: World)
    requires f.payload > 0 && Images(d, f, s, w) && c.Remove? && Leads(w.tree, f.intl, root, c.dir, x)
    requires StillThere(d, f, s, h, e, t) && v == World(Tree(e, t), w.files - {h})
    requires if h == 0 then !ok && v.tree == w.tree
              else (!ok ==> f.dircache) && Filed(w.tree, f.intl, x, c.name, h) && v.tree == w.tree - {h}
    ensures Images(e, f, t, v) && Follows(f, root, w, c, ok, v) && (h != 0 ==> Does(f, root, w, c, h, v))
              && (h == 0 ==> v == w)
  {
    hide Tree, Stored, FileIs, StillThere, Leads, SameName, Images, FilesOf, Does;
    ImageFiles(d, f, s, w);
    FilesAre(d, f, s, w);
    FilesWithout(w.tree, h);
    if h == 0 {
      assert w.files - {0} == w.files && v == w;
    } else {
      DeleteDoes(f, root, w, c, x, h);
    }
    NextImage(d, f, s, w, h, h, e, t, v);
  }

  lemma FilesWithout(tree: map<Lba, Fact>, h: Lba)
    ensures FilesOf(tree - {h}) == FilesOf(tree) - {h}
  {}

  lemma DeleteDoes(f: Format, root: Lba, w: World, c: Command, x: Lba, h: Lba)
    requires c.Remove? && Leads(w.tree, f.intl, root, c.dir, x) && Filed(w.tree, f.intl, x, c.name, h)
    ensures Does(f, root, w, c, h, World(w.tree - {h}, w.files - {h}))
  {
    hide Leads, SameName;
    assert Means(w, f, root, c.dir, c.name, h);
  }

  /** What a crash leaves of a delete: the world before or the one after. */
  lemma DeleteLeft(d: Disk, f: Format, layoutPolicy: bool, root: Lba, s: Shape, w: World, c: Command, h: Lba, v: World,
          ok: bool, before: seq<Disk>, after: seq<Disk>)
    requires f.payload > 0 && Images(d, f, s, w) && c.Remove? && before <= after
              && OthersRead(d, f, s, h, after, |before|)
    requires Follows(f, root, w, c, ok, v) && v.files == w.files - {h} && (h == 0 ==> v == w)
              && Shown(after, |before|, f, root, {w.tree, v.tree})
    requires h != 0 ==> WholeOrGone(d, f, h, after, |before|, root, v.tree)
    ensures Went(f, layoutPolicy, root, w, c, ok, v, before, after)
  {
    ImageFiles(d, f, s, w);
    if h in w.files { StoredOf(d, f, s, w, h); StoredIsRead(d, f, h, w.files[h]); }
    hide Does, Midway, Realises, Tree, Stored, FileIs, Images, OthersRead, Shows, Follows;
    OthersAreRead(d, f, s, w, h, after, |before|);
    forall i | |before| <= i < |after|
      ensures Realises(after[i], f, root, w) || Realises(after[i], f, root, v)
    {
      assert ShowsOne(after[i], f, root, {w.tree, v.tree});
      assert h in w.files ==> FileIs(after[i], f, h, w.files[h]) || Shows(after[i], f, root, v.tree);
    }
    EitherLeft(f, layoutPolicy, root, w, c, ok, v, before, after);
  }

  lemma StoredOf(d: Disk, f: Format, s: Shape, w: World, h: Lba)
    requires f.payload > 0 && Images(d, f, s, w) && h in w.files
    ensures Stored(d, f, h, w.files[h]) && s.Owns(h)
  {
    hide Tree, Stored;
  }

  method RemoveIt(m: Mutator, c: Command, ghost w: World) returns (ok: bool, ghost v: World)
    requires m.Valid() && Models(m, w) && c.Remove?
    modifies m, m.vol.src, m.alloc
    ensures m.Valid() && Models(m, v)
    ensures Went(m.vol.f, m.layoutPolicy, m.vol.root, w, c, ok, v, old(m.vol.src.trail), m.vol.src.trail)
    ensures m.vol.f.slots > 0 && Accounts(m.vol.f, m.layoutPolicy, m.vol.root, w, c, ok, v, old(Now(m)), Now(m))
  {
    hide Mutator.Valid, Tree, Images, Leads, Mutator.Handle, Went, Follows, OthersRead, StillThere, Shown, SameName,
      WholeOrGone, MayUnlink,
      Reclaimed, Possesses, Childless;
    Stays(m.vol.f, m.layoutPolicy, m.vol.root, w, c, m.vol.src.trail);
    OrderlyNow(m);
    var where := Where(m, c.dir, w);
    if where.None? {
      Lost(m.vol.f, m.layoutPolicy, m.vol.root, w, c, Now(m));
      return false, w;
    }
    RestAllowed(m, w, c, where.value);
    ModelsTree(m, w);
    ghost var d, s, writes, x := m.vol.src.blocks, m.shape, m.vol.src.trail, Now(m);
    var r;
    ghost var h;
    r, h := Delete(m, where.value, c.name);
    ok, v := r.Ok?, World(m.Entries(), w.files - {h});
    DeleteFollows(d, m.vol.f, m.vol.root, s, w, c, where.value, h, ok, m.vol.src.blocks, m.shape, v);
    OtherAccounts(m.vol.f, m.layoutPolicy, m.vol.root, w, c, h, ok, v, x, Now(m));
    DeleteLeft(d, m.vol.f, m.layoutPolicy, m.vol.root, s, w, c, h, v, ok, writes, m.vol.src.trail);
  }

  /** A defragmentation changes nothing anyone can see. */
  lemma TidyWent(d: Disk, f: Format, layoutPolicy: bool, root: Lba, s: Shape, w: World, c: Command, h: Lba, ok: bool,
          e: Disk, t: Shape, before: seq<Disk>, after: seq<Disk>)
    requires f.payload > 0 && Images(d, f, s, w) && c.Tidy? && Leads(w.tree, f.intl, root, c.what, h)
              && (ok ==> h in w.files)
    requires Tree(e, t) == w.tree && StillThere(d, f, s, h, e, t)
              && (h in w.files ==> t.Owns(h) && Stored(e, f, h, w.files[h]))
    requires before <= after && OthersRead(d, f, s, h, after, |before|) && Shown(after, |before|, f, root, {w.tree})
    requires h in w.files ==> AllOrNothing(after, |before|, f, h, w.files[h], w.files[h])
    ensures Images(e, f, t, w) && Went(f, layoutPolicy, root, w, c, ok, w, before, after)
  {
    hide Tree, Stored, FileIs, StillThere, Images, OthersRead, Shows, Leads, Shown;
    ImageFiles(d, f, s, w);
    FilesAre(d, f, s, w);
    NextImage(d, f, s, w, h, h, e, t, w);
    OthersAreRead(d, f, s, w, h, after, |before|);
    forall i | |before| <= i < |after|
      ensures Realises(after[i], f, root, w)
    {
      OnlyView(after, i, |before|, f, root, w.tree);
      if h in w.files { StoredIsRead(after[i], f, h, w.files[h]); }
    }
    if ok { assert Does(f, root, w, c, h, w); }
    EitherLeft(f, layoutPolicy, root, w, c, ok, w, before, after);
  }

  lemma TidyDoes(f: Format, root: Lba, w: World, c: Command, h: Lba)
    requires c.Tidy? && Leads(w.tree, f.intl, root, c.what, h)
    ensures h in w.files ==> Does(f, root, w, c, h, w)
  {}

  method TidyIt(m: Mutator, c: Command, ghost w: World) returns (ok: bool, ghost v: World)
    requires m.Valid() && Models(m, w) && c.Tidy?
    modifies m, m.vol.src, m.alloc
    ensures m.Valid() && Models(m, v)
    ensures Went(m.vol.f, m.layoutPolicy, m.vol.root, w, c, ok, v, old(m.vol.src.trail), m.vol.src.trail)
    ensures m.vol.f.slots > 0 && Accounts(m.vol.f, m.layoutPolicy, m.vol.root, w, c, ok, v, old(Now(m)), Now(m))
  {
    hide Mutator.Valid, Tree, Images, Leads, Mutator.Handle, Went, OthersRead, StillThere, Shown, Stored, AllOrNothing,
      Contiguous,
      Footprint, Relocated, Canonical;
    v := w;
    Stays(m.vol.f, m.layoutPolicy, m.vol.root, w, c, m.vol.src.trail);
    OrderlyNow(m);
    var what := Where(m, c.what, w);
    if what.None? {
      Lost(m.vol.f, m.layoutPolicy, m.vol.root, w, c, Now(m));
      return false, w;
    }
    var h := what.value;
    RestAllowed(m, w, c, h);
    ModelsTree(m, w);
    ghost var d, s, writes, x := m.vol.src.blocks, m.shape, m.vol.src.trail, Now(m);
    ImageFiles(d, m.vol.f, s, w);
    ghost var was := if h in w.files then w.files[h] else [];
    if h in w.files { StoredOf(d, m.vol.f, s, w, h); }
    var r := Defragment(m, h, was);
    ok := r.Ok?;
    OwnEntries(m);
    TidyDoes(m.vol.f, m.vol.root, w, c, h);
    OtherAccounts(m.vol.f, m.layoutPolicy, m.vol.root, w, c, h, ok, v, x, Now(m));
    TidyWent(d, m.vol.f, m.layoutPolicy, m.vol.root, s, w, c, h, ok, m.vol.src.blocks, m.shape, writes,
        m.vol.src.trail);
  }

  // ---- Scripts -----------------------------------------------------------------------------------------

  /** Run one command. */
  method Execute(m: Mutator, c: Command, ghost w: World) returns (ok: bool, ghost v: World)
    requires m.Valid() && Models(m, w) && Sane(c)
    modifies m, m.vol.src, m.alloc
    ensures m.Valid() && Models(m, v)
    ensures Went(m.vol.f, m.layoutPolicy, m.vol.root, w, c, ok, v, old(m.vol.src.trail), m.vol.src.trail)
    ensures m.vol.f.slots > 0 && Accounts(m.vol.f, m.layoutPolicy, m.vol.root, w, c, ok, v, old(Now(m)), Now(m))
  {
    hide Mutator.Valid, Models, Went, Accounts;
    OrderlyNow(m);
    match c {
      case NewFolder(_, _, _, _) => ok, v := MakeFolder(m, c, w);
      case NewFile(_, _, _, _, _) => ok, v := MakeFile(m, c, w);
      case NewSoftLink(_, _, _, _, _) => ok, v := MakeSoftLink(m, c, w);
      case NewHardLink(_, _, _, _, _) => ok, v := MakeHardLink(m, c, w);
      case WriteAt(_, _, _, _) => ok, v := EditFileOf(m, c, w);
      case Extend(_, _, _) => ok, v := EditFileOf(m, c, w);
      case Resize(_, _, _) => ok, v := EditFileOf(m, c, w);
      case Move(_, _, _, _) => ok, v := MoveIt(m, c, w);
      case Describe(_, _) => ok, v := DescribeIt(m, c, w);
      case Remove(_, _) => ok, v := RemoveIt(m, c, w);
      case Tidy(_) => ok, v := TidyIt(m, c, w);
    }
  }

  /** The worlds of a run: each command takes its own to the next, as far as it succeeded. */
  ghost predicate Plays(f: Format, root: Lba, script: seq<Command>, done: seq<bool>, worlds: seq<World>) {
    && |done| <= |script| && |worlds| == |done| + 1
    && forall j :: 0 <= j < |done| ==> Follows(f, root, worlds[j], script[j], done[j], worlds[j + 1])
  }

  /** The moments of a run, one before each command and one at the end: each is an image of
      its world, and on a volume without caches the next follows from it. */
  ghost predicate AllAccounted(f: Format, layoutPolicy: bool, root: Lba, script: seq<Command>, done: seq<bool>,
          worlds: seq<World>, moments: seq<Snapshot>)
    requires f.payload > 0 && f.slots > 0 && |done| <= |script| && |worlds| == |moments| == |done| + 1
  {
    && (forall j :: 0 <= j <= |done| ==> Images(moments[j].blocks, f, moments[j].shape, worlds[j]))
    && forall j :: 0 <= j < |done| ==>
         Accounts(f, layoutPolicy, root, worlds[j], script[j], done[j], worlds[j + 1], moments[j], moments[j + 1])
  }

  /** `marks[j]` writes had been made when command `j` began: each state between two marks is
      what a crash in the middle of that command leaves. */
  ghost predicate AllLeft(f: Format, layoutPolicy: bool, root: Lba, script: seq<Command>, worlds: seq<World>,
          marks: seq<nat>, trail: seq<Disk>)
    requires f.payload > 0 && |worlds| == |marks| <= |script| + 1
  {
    && (forall j, k :: 0 <= j <= k < |marks| ==> marks[j] <= marks[k] <= |trail|)
    && forall j, i :: 0 <= j < |marks| - 1 && marks[j] <= i < marks[j + 1] ==>
        Left(f, layoutPolicy, root, worlds[j], script[j], trail[i])
  }

  /** Each moment is the volume as the writes before its mark left it. */
  ghost predicate AllTaken(first: Disk, moments: seq<Snapshot>, marks: seq<nat>, trail: seq<Disk>)
    requires |moments| == |marks|
  {
    forall j :: 0 <= j < |marks| ==>
        marks[j] <= |trail| && moments[j].blocks == if marks[j] == 0 then first else trail[marks[j] - 1]
  }

  lemma RemembersNow(m: Mutator)
    requires m.Valid()
    ensures m.vol.src.Remembers()
  {
    hide Orderly, Mutation.Kept, Rooted, Sound, Logged, Spares, Mutator.Held, Mutator.Told, FreeOnDisk;
  }

  /** Run a script. The volume follows the worlds its commands make of the first one, each
      the next one's start. Every state a write of a command leaves is safe to mount and shows
      the world the command began in, the one it makes of it, or one it passes through, with
      every file of that world readable. Without caches each command succeeds exactly when the
      moment it began at allows it, and leaves as many free blocks as it should. */
  method RunScript(m: Mutator, script: seq<Command>, ghost w: World)
    returns (done: seq<bool>, ghost worlds: seq<World>, ghost moments: seq<Snapshot>, ghost marks: seq<nat>)
    requires m.Valid() && Models(m, w) && forall c :: c in script ==> Sane(c)
    modifies m, m.vol.src, m.alloc
    ensures m.Valid() && m.vol.f.slots > 0 && |done| == |script| && Plays(m.vol.f, m.vol.root, script, done, worlds)
    ensures worlds[0] == w && Models(m, worlds[|script|])
    ensures |moments| == |script| + 1 && moments[0] == old(Now(m)) && moments[|script|] == Now(m)
    ensures AllAccounted(m.vol.f, m.layoutPolicy, m.vol.root, script, done, worlds, moments)
    ensures old(m.vol.src.trail) <= m.vol.src.trail
    ensures |marks| == |script| + 1 && marks[0] == |old(m.vol.src.trail)| && marks[|script|] == |m.vol.src.trail|
    ensures AllLeft(m.vol.f, m.layoutPolicy, m.vol.root, script, worlds, marks, m.vol.src.trail)
    ensures AllTaken(m.vol.src.first, moments, marks, m.vol.src.trail)
    ensures forall i :: 0 <= i < |m.vol.src.trail| ==> Safe(m.vol.src.trail[i], m.g, m.vol.root)
  {
    hide Mutator.Valid, Images, Follows, Left, Safe, Sane, Accounts;
    OrderlyNow(m);
    RemembersNow(m);
    done, worlds, moments, marks := [], [w], [Now(m)], [|m.vol.src.trail|];
    while |done| < |script|
      invariant m.vol.f.payload > 0 && m.vol.f.slots > 0
      invariant m.Valid() && |done| <= |script| && Plays(m.vol.f, m.vol.root, script, done, worlds)
      invariant |moments| == |done| + 1 && moments[0] == old(Now(m)) && moments[|done|] == Now(m)
      invariant AllAccounted(m.vol.f, m.layoutPolicy, m.vol.root, script, done, worlds, moments)
      invariant worlds[0] == w && Models(m, worlds[|done|])
      invariant old(m.vol.src.trail) <= m.vol.src.trail
      invariant |marks| == |done| + 1 && marks[0] == |old(m.vol.src.trail)| && marks[|done|] == |m.vol.src.trail|
      invariant AllLeft(m.vol.f, m.layoutPolicy, m.vol.root, script, worlds, marks, m.vol.src.trail)
      invariant AllTaken(m.vol.src.first, moments, marks, m.vol.src.trail)
      decreases |script| - |done|
    {
      ghost var trail := m.vol.src.trail;
      assert script[|done|] in script;
      var ok;
      ghost var v;
      ok, v := Execute(m, script[|done|], worlds[|done|]);
      OneMorePlayed(m.vol.f, m.layoutPolicy, m.vol.root, script, done, worlds, ok, v, marks, trail, m.vol.src.trail);
      RemembersNow(m);
      OneMoreTaken(m.vol.src.first, moments, Now(m), marks, trail, m.vol.src.trail);
      OneMoreAccounted(m.vol.f, m.layoutPolicy, m.vol.root, script, done, worlds, ok, v, moments, Now(m));
      done, worlds, moments, marks := done + [ok], worlds + [v], moments + [Now(m)], marks + [|m.vol.src.trail|];
    }
    EveryCrashIsSafe(m);
  }

  lemma OneMorePlayed(f: Format, layoutPolicy: bool, root: Lba, script: seq<Command>, done: seq<bool>,
          worlds: seq<World>, ok: bool, v: World, marks: seq<nat>, before: seq<Disk>, after: seq<Disk>)
    requires f.payload > 0 && Plays(f, root, script, done, worlds) && |done| < |script|
    requires Went(f, layoutPolicy, root, worlds[|done|], script[|done|], ok, v, before, after)
    requires |marks| == |worlds| && marks[|done|] == |before|
              && AllLeft(f, layoutPolicy, root, script, worlds, marks, before)
    ensures Plays(f, root, script, done + [ok], worlds + [v])
    ensures AllLeft(f, layoutPolicy, root, script, worlds + [v], marks + [|after|], after)
  {
    hide Follows, Left;
    var all, at := worlds + [v], marks + [|after|];
    forall j, i | 0 <= j < |at| - 1 && at[j] <= i < at[j + 1]
      ensures Left(f, layoutPolicy, root, all[j], script[j], after[i])
    {
      assert all[j] == worlds[j];
      if j < |done| { assert after[i] == before[i]; }
    }
  }

  lemma OneMoreTaken(first: Disk, moments: seq<Snapshot>, now: Snapshot, marks: seq<nat>, before: seq<Disk>,
          after: seq<Disk>)
    requires |moments| == |marks| && AllTaken(first, moments, marks, before) && before <= after
    requires now.blocks == if after == [] then first else after[|after| - 1]
    ensures AllTaken(first, moments + [now], marks + [|after|], after)
  {}

  lemma OneMoreAccounted(f: Format, layoutPolicy: bool, root: Lba, script: seq<Command>, done: seq<bool>,
          worlds: seq<World>, ok: bool, v: World, moments: seq<Snapshot>, now: Snapshot)
    requires f.payload > 0 && f.slots > 0 && |done| < |script| && |worlds| == |moments| == |done| + 1
    requires AllAccounted(f, layoutPolicy, root, script, done, worlds, moments) && Images(now.blocks, f, now.shape, v)
    requires Accounts(f, layoutPolicy, root, worlds[|done|], script[|done|], ok, v, moments[|done|], now)
    ensures AllAccounted(f, layoutPolicy, root, script, done + [ok], worlds + [v], moments + [now])
  {
    hide Images, Accounts;
  }
}
