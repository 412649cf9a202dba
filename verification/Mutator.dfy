/**
 Operations on a mounted volume. There is no journal: an operation is a sequence of
 single-block writes, and its crash safety is their order.
 */
module Mutation {
  import opened Words
  import opened Disk
  import opened Allocation
  import opened Names
  import opened Forest
  import opened Directories
  import opened Dircache
  import opened Protocol
  import opened Reader
  import opened Steps

  datatype MutateError =
    | Read(error: Error)
    | Alloc(fault: AllocError)
    | NameEmpty
    | NameTooLong(len: nat, max: nat)
    | SoftlinkPathTooLong(len: nat, max: nat)
    | SoftlinkPathInvalidByte(index: nat)
    | NameInvalidByte(byte: Byte, index: nat)
    | CommentTooLong(len: nat)
    | NotFound(dir: Lba, name: Bytes)
    | DuplicateName(dir: Lba, name: Bytes)
    | NotAFile(lba: Lba)
    | NotADirectory(lba: Lba)
    | DirectoryNotEmpty(lba: Lba)
    | LinkedTo(lba: Lba, link: Lba)
    | LinkTargetKind(lba: Lba)
    | NotInChain(lba: Lba)
    | NotInLinkChain(lba: Lba)
    | StillLinked(lba: Lba, dir: Lba)
    | IsRoot(lba: Lba)
    | IntoOwnSubtree(entry: Lba, dir: Lba)
    | FileTooLarge(size: nat)

  /** One block after another. */
  predicate Ascending(run: seq<Allocated>) {
    forall i :: 0 <= i < |run| ==> run[i].lba == run[0].lba + i
  }

  /** A block of a cache chain: where it is, or where it goes and where it was. */
  datatype Place = Stay(lba: Lba) | Move(to: Allocated, was: Option<Lba>)

  function Target(p: Place): Lba {
    match p
    case Stay(lba) => lba
    case Move(to, _) => to.lba
  }

  function Distance(a: Lba, b: Lba): nat {
    if a < b then b - a else a - b
  }

  /** Every block in use is one the bitmap covers and calls allocated. */
  ghost predicate Kept(s: Shape, lo: nat, hi: nat, free: set<Lba>) {
    forall x: Lba :: s.Owns(x) ==> lo <= x < hi && x !in free
  }

  /** No entry is filed in `h`. */
  predicate Childless(tree: map<Lba, Fact>, h: Lba) {
    forall y :: y in tree ==> tree[y].dir != h
  }

  lemma SameOwned(s: Shape, t: Shape, lo: nat, hi: nat, free: set<Lba>)
    requires Kept(s, lo, hi, free) && forall x: Lba :: t.Owns(x) ==> s.Owns(x)
    ensures Kept(t, lo, hi, free)
  {}

  class Mutator {
    const vol: Volume
    const alloc: Allocator
    const layoutPolicy: bool
    const clock: Option<Date>

    /** The blocks closed under pointers that nothing may call free. */
    ghost var live: set<Lba>
    ghost var shape: Shape
    ghost var rank: map<Lba, int>
    /** Where the current operation began: the disk, its shape, the states before it, and
        the blocks of the one file it is about. */
    ghost var base: Disk
    ghost var origin: Shape
    ghost var past: seq<Disk>
    ghost var busy: set<Lba>
    /** What the directories have shown since the operation began. */
    ghost var views: set<map<Lba, Fact>>
    ghost const g: Geometry

    /** A session on a volume whose blocks in use are all allocated, in memory and, page
        by page, on the disk. */
    constructor (vol: Volume, alloc: Allocator, layoutPolicy: bool, clock: Option<Date>, ghost shape: Shape,
            ghost rank: map<Lba, int>)
      requires alloc.Valid() && alloc.Synced(vol.src.blocks) && vol.f.payload > 0 && vol.f.slots > 0
      requires Orderly(vol.src.blocks, vol.f, alloc.Layout(), shape, rank, vol.root) && Rooted(vol.src.blocks, shape)
      requires Kept(shape, alloc.reserved, alloc.reserved + alloc.Covered(), alloc.Free())
      requires forall x: Lba :: shape.Owns(x) ==> !FreeOnDisk(vol.src.blocks, alloc.Layout(), x)
      requires vol.src.trail == [] && vol.src.Remembers()
      ensures this.vol == vol && this.alloc == alloc && this.layoutPolicy == layoutPolicy && this.clock == clock
      ensures this.shape == shape && Valid()
    {
      this.vol := vol;
      this.alloc := alloc;
      this.layoutPolicy := layoutPolicy;
      this.clock := clock;
      this.shape := shape;
      this.rank := rank;
      this.live := shape.Members();
      this.base := vol.src.blocks;
      this.origin := shape;
      this.past := [];
      this.busy := SetOf(alloc.Layout().pages);
      this.views := {Tree(vol.src.blocks, shape)};
      this.g := alloc.Layout();
      new;
      OrderlyShows(vol.src.blocks, vol.f, g, shape, rank, vol.root);
      GrownIsClosed(vol.src.blocks, shape);
      PagesAreOwned(vol.src.blocks, vol.f, g, shape, rank, vol.root);
    }

    // ---- Between two writes ---------------------------------------------------------

    /** The directories of `d`, as `s` has them, show something the operation has accounted for. */
    ghost predicate Legible(d: Disk, s: Shape, r: map<Lba, int>)
      reads this`views
    {
      ShowsBy(d, vol.f, vol.root, Tree(d, s), s, r) && Tree(d, s) in views
    }

    /** So do they now, and so did they after every write. */
    ghost predicate Told()
      reads this`shape, this`rank, this`views, this`past, vol.src
    {
      Legible(vol.src.blocks, shape, rank) && Shown(vol.src.trail, |past|, vol.f, vol.root, views)
    }

    ghost predicate Ready()
      reads this, alloc, vol.src
    {
      var d := vol.src.blocks;
      && alloc.Valid() && alloc.Synced(d) && alloc.Layout() == g && vol.f.payload > 0 && vol.f.slots > 0
          && vol.src.Remembers()
      && Sound(d, g, alloc.Free(), live, vol.root)
      && Logged(vol.src.trail, g, vol.root, past, base, origin, busy) && Spares(base, d, origin, busy)
      && (forall i :: 0 <= i < |g.pages| ==> g.pages[i] in busy)
      && Held(base, origin, busy, alloc.Free()) && Told()
    }

    /** The same, and the directories are what the shape says. */
    ghost predicate Steady()
      reads this, alloc, vol.src
    {
      && Ready() && Orderly(vol.src.blocks, vol.f, g, shape, rank, vol.root)
      && Kept(shape, alloc.reserved, alloc.reserved + alloc.Covered(), alloc.Free()) && shape.Members() <= live
    }

    /** A volume at rest. */
    ghost predicate Valid()
      reads this, alloc, vol.src
    {
      Steady() && Rooted(vol.src.blocks, shape)
    }

    /** What the operation must leave alone is not handed out. */
    static ghost predicate Held(d: Disk, s: Shape, busy: set<Lba>, free: set<Lba>) {
      forall x: Lba :: s.Owns(x) && x !in busy && x < |d| && BearsFile(d[x]) ==> x !in free
    }

    /** The one way an operation writes a block. */
    method Put(lba: Lba, b: Block)
      requires Ready() && lba < |vol.src.blocks|
      requires lba in live ==> !vol.src.blocks[lba].Bitmap? && PointsInto(b, live)
      requires lba < |base| && (origin.Owns(lba) && lba !in busy ==> KeepsFile(base[lba], b))
      requires Legible(vol.src.blocks[lba := b], shape, rank)
      modifies vol.src
      ensures Ready()
      ensures vol.src.blocks == old(vol.src.blocks)[lba := b]
      ensures vol.src.trail == old(vol.src.trail) + [vol.src.blocks]
      ensures forall x :: FreeOnDisk(vol.src.blocks, g, x) <==> FreeOnDisk(old(vol.src.blocks), g, x)
    {
      hide Sound, Logged, Spares, Held, FreeOnDisk, ShowsBy, Shown, Tree;
      ghost var d, free := vol.src.blocks, alloc.Free();
      LegibleIsShown(d[lba := b]);
      PagesElsewhere(d, free, lba);
      PagesStayPut(d, lba, b);
      PutIsSound(d, g, free, live, vol.root, lba, b);
      PutIsSpared(base, d, origin, busy, lba, b);
      vol.src.Write(lba, b);
      PutIsLogged(old(vol.src.trail), d[lba := b], g, free, live, vol.root, past, base, origin, busy);
    }

    lemma LegibleIsShown(e: Disk)
      requires Told() && Legible(e, shape, rank)
      ensures Shown(vol.src.trail + [e], |past|, vol.f, vol.root, views)
    {
      hide ShowsBy, Shown, Tree;
      ShownMore(vol.src.trail, e, |past|, vol.f, vol.root, views, Tree(e, shape), shape, rank);
      assert views + {Tree(e, shape)} == views;
    }

    /** A write with which what the directories show changes, or which blocks are whose. */
    method PutTurn(lba: Lba, b: Block, ghost s: Shape, ghost r: map<Lba, int>)
      requires Ready() && lba < |vol.src.blocks|
      requires lba in live ==> !vol.src.blocks[lba].Bitmap? && PointsInto(b, live)
      requires lba < |base| && (origin.Owns(lba) && lba !in busy ==> KeepsFile(base[lba], b))
      requires Orderly(vol.src.blocks[lba := b], vol.f, g, s, r, vol.root)
      modifies this`shape, this`rank, this`views, vol.src
      ensures Ready() && shape == s && rank == r && views == old(views) + {Tree(vol.src.blocks, s)}
      ensures vol.src.blocks == old(vol.src.blocks)[lba := b]
      ensures vol.src.trail == old(vol.src.trail) + [vol.src.blocks]
      ensures forall x :: FreeOnDisk(vol.src.blocks, g, x) <==> FreeOnDisk(old(vol.src.blocks), g, x)
    {
      hide Sound, Logged, Spares, Held, FreeOnDisk, ShowsBy, Shown, Tree, Orderly;
      ghost var d, free, e := vol.src.blocks, alloc.Free(), vol.src.blocks[lba := b];
      OrderlyShows(e, vol.f, g, s, r, vol.root);
      ShownMore(vol.src.trail, e, |past|, vol.f, vol.root, views, Tree(e, s), s, r);
      PagesElsewhere(d, free, lba);
      PagesStayPut(d, lba, b);
      PutIsSound(d, g, free, live, vol.root, lba, b);
      PutIsSpared(base, d, origin, busy, lba, b);
      vol.src.Write(lba, b);
      shape, rank, views := s, r, views + {Tree(e, s)};
      PutIsLogged(old(vol.src.trail), e, g, free, live, vol.root, past, base, origin, busy);
    }

    /** Nothing is written, but which blocks are whose is seen another way. */
    ghost method TakeShape(s: Shape)
      requires Ready() && Orderly(vol.src.blocks, vol.f, g, s, rank, vol.root) && Tree(vol.src.blocks, s) in views
      modifies this`shape
      ensures Ready() && shape == s
    {
      hide Sound, Logged, Spares, Held, FreeOnDisk, ShowsBy, Shown, Tree, Orderly;
      OrderlyShows(vol.src.blocks, vol.f, g, s, rank, vol.root);
      shape := s;
    }

    lemma ViewNow()
      requires Ready()
      ensures Entries() in views
    {
      hide Sound, Logged, Spares, Held, FreeOnDisk, ShowsBy, Shown, Tree;
    }

    /** An orderly volume that shows what it showed. */
    lemma StillLegible(e: Disk, s: Shape, r: map<Lba, int>)
      requires Told() && Orderly(e, vol.f, g, s, r, vol.root) && Tree(e, s) == Entries()
      ensures Legible(e, s, r)
    {
      hide ShowsBy, Shown, Tree, Orderly;
      OrderlyShows(e, vol.f, g, s, r, vol.root);
    }

    lemma LegibleStill(e: Disk)
      requires Ready() && Orderly(e, vol.f, g, shape, rank, vol.root) && Tree(e, shape) == Entries()
      ensures Legible(e, shape, rank)
    {
      hide Sound, Logged, Spares, Held, FreeOnDisk, Orderly, Legible;
      StillLegible(e, shape, rank);
    }

    /** The same shape, on a disk whose directories read alike. */
    lemma LegibleAlike(e: Disk)
      requires Told() && |e| == |vol.src.blocks|
      requires forall x: Lba :: shape.Owns(x) && x < |e| ==> Alike(vol.src.blocks[x], e[x])
      ensures Legible(e, shape, rank)
    {
      hide Alike, Shown, InOrder;
      AlikeKeepsInOrder(vol.src.blocks, vol.f, shape, rank, vol.root, Tree(vol.src.blocks, shape), e);
    }

    lemma PagesElsewhere(d: Disk, free: set<Lba>, lba: Lba)
      requires |alloc.dirty| <= |alloc.pages|
      requires Sound(d, g, free, live, vol.root) && lba < |d| && alloc.Layout() == g && alloc.PagesGood()
      requires lba in live ==> !d[lba].Bitmap?
      ensures forall i :: 0 <= i < |alloc.dirty| ==> alloc.pages[i] == g.pages[i] != lba
    {
      forall i | 0 <= i < |alloc.dirty|
        ensures alloc.pages[i] == g.pages[i] != lba
      {}
    }

    lemma PagesStayPut(d: Disk, lba: Lba, b: Block)
      requires |g.pages| == |alloc.dirty| <= |alloc.pages|
      requires lba < |d| && (forall i :: 0 <= i < |alloc.dirty| ==> alloc.pages[i] == g.pages[i] != lba)
      ensures forall x :: FreeOnDisk(d[lba := b], g, x) <==> FreeOnDisk(d, g, x)
    {
      SamePagesSameFree(d, d[lba := b], g);
    }

    /** Get every dirty bitmap page onto the disk. */
    method Flush()
      requires Ready()
      modifies vol.src, alloc`dirty
      ensures Ready()
      ensures Flushed(g, alloc.Free(), old(vol.src.blocks), vol.src.blocks)
      ensures forall i :: 0 <= i < |alloc.dirty| ==> !alloc.dirty[i]
      ensures forall x :: FreeOnDisk(vol.src.blocks, g, x) <==> x in alloc.Free()
    {
      hide Sound, Logged, Spares, Held, Flushed, FlushTrail, Legible, Shown;
      ghost var d, trail, free := vol.src.blocks, vol.src.trail, alloc.Free();
      BitmapsNow();
      var r := alloc.Flush(vol.src);
      FlushIsTold(d, trail, free);
      FlushIsSound(d, g, free, live, vol.root, vol.src.blocks);
      FlushIsSpared(base, d, origin, busy, g, free, vol.src.blocks);
      FlushIsLogged(trail, vol.src.trail, d, g, free, live, vol.root, past, base, origin, busy);
    }

    lemma BitmapsNow()
      requires Ready()
      ensures forall i :: 0 <= i < |g.pages| ==> g.pages[i] < |vol.src.blocks| && vol.src.blocks[g.pages[i]].Bitmap?
    {}

    /** A flush writes nothing a search of the directories looks at. */
    lemma FlushIsTold(d: Disk, trail: seq<Disk>, free: set<Lba>)
      requires Legible(d, shape, rank) && Shown(trail, |past|, vol.f, vol.root, views)
      requires forall i :: 0 <= i < |g.pages| ==> g.pages[i] < |d| && d[g.pages[i]].Bitmap?
      requires Flushed(g, free, d, vol.src.blocks) && FlushTrail(g, free, d, trail, vol.src.trail)
      ensures Told()
    {
      hide ShowsBy, Tree;
      PagesAreAlike(d, vol.src.blocks);
      forall i | |past| <= i < |vol.src.trail|
        ensures ShowsOne(vol.src.trail[i], vol.f, vol.root, views)
      {
        if i < |trail| {
          assert ShowsOne(trail[i], vol.f, vol.root, views);
        } else {
          PagesAreAlike(d, vol.src.trail[i]);
          assert Shows(vol.src.trail[i], vol.f, vol.root, Tree(d, shape));
        }
      }
    }

    lemma PagesAreAlike(d: Disk, e: Disk)
      requires Legible(d, shape, rank) && PagesRewritten(d, e, g)
      requires forall i :: 0 <= i < |g.pages| ==> g.pages[i] < |d| && d[g.pages[i]].Bitmap?
      ensures ShowsBy(e, vol.f, vol.root, Tree(d, shape), shape, rank) && Tree(e, shape) == Tree(d, shape)
    {
      forall x: Lba | shape.Owns(x) && x < |d|
        ensures Alike(d[x], e[x])
      {
        AlikeItself(d[x]);
      }
      hide Alike, InOrder, IsFolder, Tree;
      AlikeKeepsInOrder(d, vol.f, shape, rank, vol.root, Tree(d, shape), e);
    }

    // ---- Steps that leave the directories as they are --------------------------------

    ghost function Entries(): map<Lba, Fact>
      reads this`shape, vol.src
    {
      Tree(vol.src.blocks, shape)
    }

    /** Write a block that nothing in use points to. */
    method PutLoose(lba: Lba, b: Block)
      requires Steady() && lba !in live && !shape.Owns(lba) && lba < |vol.src.blocks|
      requires lba < |base| && (origin.Owns(lba) && lba !in busy ==> !BearsFile(base[lba]))
      modifies vol.src
      ensures Steady() && (old(Valid()) ==> Valid())
      ensures vol.src.blocks == old(vol.src.blocks)[lba := b] && Entries() == old(Entries())
      ensures vol.src.trail == old(vol.src.trail) + [vol.src.blocks]
      ensures Carries(old(vol.src.blocks), shape, vol.src.blocks, shape)
      ensures forall x :: old(Mine(x)) ==> Mine(x)
    {
      hide Ready, Orderly, Kept, Rooted, Unused, FreeOnDisk;
      LooseKeepsOrder(vol.src.blocks, vol.f, g, shape, rank, vol.root, lba, b);
      LegibleStill(vol.src.blocks[lba := b]);
      Put(lba, b);
    }

    /** Rewrite a data block of the file the operation is about. */
    method PutContent(lba: Lba, b: Block)
      requires Valid() && shape.Owns(lba) && lba in busy && lba < |vol.src.blocks| && IsContent(vol.src.blocks[lba])
                && IsContent(b)
      modifies vol.src
      ensures Valid()
      ensures vol.src.blocks == old(vol.src.blocks)[lba := b] && Entries() == old(Entries())
      ensures vol.src.trail == old(vol.src.trail) + [vol.src.blocks]
      ensures forall x :: FreeOnDisk(vol.src.blocks, g, x) <==> FreeOnDisk(old(vol.src.blocks), g, x)
    {
      hide Told, Orderly, Kept, Rooted, Logged, Held, FreeOnDisk, Medium.Remembers, Allocator.Valid, Tree;
      ghost var d := vol.src.blocks;
      SameLength();
      ContentsAreQuiet(d[lba], b);
      BlocksAlikeKeepOrder(d, vol.f, g, shape, rank, vol.root, d[lba := b]);
      LegibleStill(d[lba := b]);
      assert lba in live ==> PointsInto(d[lba], live);
      Put(lba, b);
    }

    /** Rewrite a block without moving a pointer or renaming anything. */
    method PutNeutral(lba: Lba, b: Block)
      requires Steady() && (shape.Owns(lba) || (lba !in live && !origin.Owns(lba)))
      requires lba < |vol.src.blocks| && !vol.src.blocks[lba].Bitmap? && Neutral(vol.src.blocks[lba], b)
      modifies vol.src
      ensures Steady() && (old(Valid()) ==> Valid())
      ensures vol.src.blocks == old(vol.src.blocks)[lba := b] && Entries() == old(Entries())
      ensures Carries(old(vol.src.blocks), shape, vol.src.blocks, shape)
    {
      hide Ready, Orderly, Kept, Rooted, Neutral, Quiet, PointsInto, KeepsFile, Carries, Tree, FreeOnDisk;
      ghost var d := vol.src.blocks;
      NeutralIsPutable(lba, b);
      BlocksAlikeKeepOrder(d, vol.f, g, shape, rank, vol.root, d[lba := b]);
      LegibleStill(d[lba := b]);
      Put(lba, b);
    }

    lemma NeutralIsPutable(lba: Lba, b: Block)
      requires Steady() && (shape.Owns(lba) || (lba !in live && !origin.Owns(lba)))
      requires lba < |vol.src.blocks| && Neutral(vol.src.blocks[lba], b)
      ensures Quiet(vol.src.blocks[lba], b) && (lba in live ==> PointsInto(b, live))
      ensures lba < |base| && (origin.Owns(lba) && lba !in busy ==> KeepsFile(base[lba], b))
      ensures Carries(vol.src.blocks, shape, vol.src.blocks[lba := b], shape)
    {
      hide Told, Orderly, Kept, Logged, Held, FreeOnDisk;
      SameLength();
      assert lba in live ==> PointsInto(vol.src.blocks[lba], live);
    }

    /** Flush, as a volume in order sees it. */
    method FlushBitmap()
      requires Steady()
      modifies vol.src, alloc`dirty
      ensures Steady() && (old(Valid()) ==> Valid()) && Entries() == old(Entries())
      ensures Flushed(g, alloc.Free(), old(vol.src.blocks), vol.src.blocks)
      ensures forall i :: 0 <= i < |alloc.dirty| ==> !alloc.dirty[i]
      ensures forall x :: FreeOnDisk(vol.src.blocks, g, x) <==> x in alloc.Free()
      ensures Carries(old(vol.src.blocks), shape, vol.src.blocks, shape)
      ensures forall x :: Unused(x) && alloc.IsCovered(x) && x !in alloc.Free() ==> Mine(x)
      ensures |vol.src.blocks| == |old(vol.src.blocks)|
      ensures forall x: Lba :: x < |vol.src.blocks| && !old(vol.src.blocks)[x].Bitmap? ==>
                vol.src.blocks[x] == old(vol.src.blocks)[x]
      ensures forall x: Lba :: old(Mine(x)) ==>
                Mine(x) && (x < |vol.src.blocks| ==> vol.src.blocks[x] == old(vol.src.blocks)[x])
    {
      hide Orderly, Kept, Rooted, Ready, Unused, FreeOnDisk;
      ghost var d := vol.src.blocks;
      PagesNow();
      PagesAreLive();
      Flush();
      assert PagesRewritten(d, vol.src.blocks, g);
      PagesCarryNoFile(d, shape, vol.src.blocks, g);
      forall x: Lba | shape.Owns(x) && x < |d|
        ensures vol.src.blocks[x] == d[x] || Neutral(d[x], vol.src.blocks[x])
      {}
      BlocksAlikeKeepOrder(d, vol.f, g, shape, rank, vol.root, vol.src.blocks);
    }

    lemma PagesAreLive()
      requires Ready()
      ensures forall x :: Unused(x) ==> x !in g.pages
    {}

    lemma PagesNow()
      requires Steady()
      ensures forall i :: 0 <= i < |g.pages| ==> g.pages[i] < |vol.src.blocks| && vol.src.blocks[g.pages[i]].Bitmap?
    {}

    /** Take the free block nearest ahead of `hint`. */
    method AllocateNear(hint: nat) returns (r: Result<Allocated, MutateError>)
      requires Steady()
      modifies alloc`words, alloc`free, alloc`dirty, alloc`cursor
      ensures Steady() && (old(Valid()) ==> Valid())
      ensures alloc.Covered() == old(alloc.Covered())
      ensures r.Err? ==> alloc.Free() == old(alloc.Free()) == {}
      ensures r.Ok? ==> r.value.lba in old(alloc.Free()) && alloc.Free() == old(alloc.Free()) - {r.value.lba}
      ensures r.Ok? ==> Unused(r.value.lba) && alloc.IsCovered(r.value.lba) && r.value.page < |alloc.dirty|
      ensures r.Ok? ==> r.value.lba < |vol.src.blocks|
      ensures forall x :: old(Mine(x)) ==> Mine(x)
    {
      hide Orderly, Rooted, Logged, Spares, Unused, Sound, Held, Kept, FreeOnDisk, Told, Medium.Remembers,
        Allocator.Valid, Allocator.Free;
      FreeIsUnused();
      SameLength();
      ghost var free, live0 := alloc.Free(), live;
      var a := alloc.AllocateNear(hint);
      if a.Err? {
        return Err(Alloc(a.error));
      }
      FewerFree(free, alloc.Free());
      r := Ok(a.value);
    }

    /** Take a run of blocks: `n` of them where some run is that long. */
    method AllocateRun(n: nat, hint: nat) returns (r: Result<seq<Allocated>, MutateError>)
      requires Steady() && n > 0
      modifies alloc`words, alloc`free, alloc`dirty, alloc`cursor
      ensures Steady() && (old(Valid()) ==> Valid()) && alloc.Covered() == old(alloc.Covered())
      ensures r.Err? ==> alloc.Free() == old(alloc.Free()) == {}
      ensures r.Ok? ==>
                0 < |r.value| <= n && Lbas(r.value) <= old(alloc.Free())
                && alloc.Free() == old(alloc.Free()) - Lbas(r.value)
      ensures r.Ok? ==> Ascending(r.value) && (HasStretch(old(alloc.Free()), n) ==> |r.value| == n)
      ensures forall x :: old(Mine(x)) ==> Mine(x)
    {
      hide Told, Orderly, Rooted, Logged, Spares, Unused, Sound, Held, Kept, FreeOnDisk, BestRun, HasStretch;
      ghost var free := alloc.Free();
      var run := alloc.AllocateRunFrom(n, Some(hint));
      FewerFree(free, alloc.Free());
      if run.Err? {
        return Err(Alloc(run.error));
      }
      r := Ok(run.value);
    }

    lemma FewerFree(was: set<Lba>, now: set<Lba>)
      requires now <= was
      ensures Sound(vol.src.blocks, g, was, live, vol.root) ==> Sound(vol.src.blocks, g, now, live, vol.root)
      ensures Held(base, origin, busy, was) ==> Held(base, origin, busy, now)
      ensures forall lo, hi :: Kept(shape, lo, hi, was) ==> Kept(shape, lo, hi, now)
    {}

    lemma FreeIsUnused()
      requires Steady()
      ensures forall x :: x in alloc.Free() ==> Unused(x) && alloc.IsCovered(x) && x < |vol.src.blocks|
    {
      SameLength();
    }

    lemma SameLength()
      requires Ready()
      ensures |base| == |vol.src.blocks| == alloc.blockCount
    {}

    /** The number of a block just taken, refused until its bitmap page is on the disk. */
    method Reference(a: Allocated) returns (r: Result<Lba, MutateError>)
      ensures if r.Ok? then r.value == a.lba else a.page < |alloc.dirty| && alloc.dirty[a.page]
    {
      var lba := alloc.Reference(a);
      r := if lba.Err? then Err(Alloc(lba.error)) else Ok(lba.value);
    }

    /** Mark, flush, then reference: one block near `hint`, taken on the disk as well. */
    method TakeBlock(hint: nat) returns (r: Result<Lba, MutateError>)
      requires Valid()
      modifies vol.src, alloc
      ensures Valid() && Entries() == old(Entries()) && |vol.src.blocks| == |old(vol.src.blocks)|
      ensures r.Err? <==> old(alloc.Free()) == {}
      ensures r.Err? ==> alloc.Free() == {}
      ensures r.Ok? ==> r.value in old(alloc.Free()) && alloc.Free() == old(alloc.Free()) - {r.value}
      ensures Carries(old(vol.src.blocks), shape, vol.src.blocks, shape)
      ensures r.Ok? ==> Mine(r.value) && 0 < r.value < |vol.src.blocks| && !old(Mine(r.value))
      ensures forall x: Lba :: x < |vol.src.blocks| && !old(vol.src.blocks)[x].Bitmap? ==>
                vol.src.blocks[x] == old(vol.src.blocks)[x]
      ensures forall x: Lba :: old(Mine(x)) ==>
                Mine(x) && (x < |vol.src.blocks| ==> vol.src.blocks[x] == old(vol.src.blocks)[x])
    {
      hide Ready, Orderly, Kept, Rooted, FreeOnDisk, Tree, Carries, Unused;
      CarriesItself(vol.src.blocks, shape);
      var a := AllocateNear(hint);
      if a.Err? {
        return Err(a.error);
      }
      MineFactsOf(a.value.lba);
      FlushBitmap();
      r := Reference(a.value);
    }

    lemma MineFactsOf(x: Lba)
      requires Unused(x)
      ensures x > 0
    {}

    /** A block the operation may write: nothing in use points to it. */
    ghost predicate Unused(x: Lba)
      reads this`live, this`shape, this`base, this`origin, this`busy
    {
      && 0 < x < |base| && x !in live && !shape.Owns(x)
      && (origin.Owns(x) && x !in busy ==> !BearsFile(base[x]))
    }

    // ---- Giving blocks back -----------------------------------------------------------

    /** A block this session may give back: allocated, and nothing in use points to it. */
    ghost predicate Spent(x: Lba)
      reads this`shape, this`base, this`origin, this`busy, alloc`words
    {
      && alloc.IsCovered(x) && x !in alloc.Free() && !shape.Owns(x) && x < |base|
      && (origin.Owns(x) && x !in busy ==> !BearsFile(base[x]))
    }

    method FreeOne(x: Lba) returns (r: Result<(), MutateError>)
      requires Steady() && Spent(x) && x !in live
      modifies alloc`words, alloc`free, alloc`dirty
      ensures r.Ok? && Steady() && (old(Valid()) ==> Valid()) && alloc.Covered() == old(alloc.Covered())
      ensures alloc.Free() == old(alloc.Free()) + {x}
      ensures forall y :: y != x && old(Spent(y)) ==> Spent(y)
    {
      hide Told, Orderly, Rooted, Logged, Spares, Sound, Held, Kept, BearsFile, Allocator.Free, Allocator.Valid;
      OneMoreFree(alloc.Free(), x);
      var f := alloc.FreeBlock(x);
      match f {
        case Err(fault) => r := Err(Alloc(fault));
        case Ok(_) => r := Ok(());
      }
    }

    lemma OneMoreFree(was: set<Lba>, x: Lba)
      requires x !in live && !shape.Owns(x) && x < |base| && (origin.Owns(x) && x !in busy ==> !BearsFile(base[x]))
      ensures Sound(vol.src.blocks, g, was, live, vol.root) ==> Sound(vol.src.blocks, g, was + {x}, live, vol.root)
      ensures Held(base, origin, busy, was) ==> Held(base, origin, busy, was + {x})
      ensures forall lo, hi :: Kept(shape, lo, hi, was) ==> Kept(shape, lo, hi, was + {x})
    {}

    /** Clear a list of bits: only once nothing on the disk names the blocks. */
    method FreeAll(list: seq<Lba>) returns (r: Result<(), MutateError>)
      requires Steady() && NoRepeats(list) && forall x :: x in list ==> Spent(x)
      modifies this`live, alloc`words, alloc`free, alloc`dirty
      ensures r.Ok? && Steady() && (old(Valid()) ==> Valid()) && alloc.Covered() == old(alloc.Covered())
      ensures alloc.Free() == old(alloc.Free()) + SetOf(list)
      ensures forall y :: y !in list && old(Spent(y)) ==> Spent(y)
    {
      hide Told, Orderly, Rooted, Logged, Spares, Sound, Held, Kept, Spent;
      ShedTheRest();
      live := shape.Members();
      r := ClearBits(list);
    }

    method ClearBits(list: seq<Lba>) returns (r: Result<(), MutateError>)
      requires Steady() && NoRepeats(list) && live == shape.Members() && forall x :: x in list ==> Spent(x)
      modifies alloc`words, alloc`free, alloc`dirty
      ensures r.Ok? && Steady() && (old(Valid()) ==> Valid()) && alloc.Covered() == old(alloc.Covered())
      ensures alloc.Free() == old(alloc.Free()) + SetOf(list)
      ensures forall y :: y !in list && old(Spent(y)) ==> Spent(y)
    {
      hide Steady, Valid, Spent, SetOf;
      ghost var free := alloc.Free();
      SpentOnes(list);
      NothingListed(vol.src.blocks);
      assert list[..0] == [];
      var i := 0;
      while i < |list|
        invariant 0 <= i <= |list| && live == shape.Members()
        invariant Steady() && (old(Valid()) ==> Valid()) && alloc.Covered() == old(alloc.Covered())
        invariant alloc.Free() == free + SetOf(list[..i])
        invariant forall j :: i <= j < |list| ==> Spent(list[j])
        invariant forall y :: y !in list && old(Spent(y)) ==> Spent(y)
        invariant forall j :: 0 <= j < |list| ==> list[j] !in live
      {
        var f := FreeOne(list[i]);
        if f.Err? {
          return f;
        }
        assert list[..i + 1] == list[..i] + [list[i]];
        SetOfMore(list[..i], list[i]);
        i := i + 1;
      }
      assert list[..i] == list;
      r := Ok(());
    }

    lemma SpentOnes(list: seq<Lba>)
      requires live == shape.Members() && forall x :: x in list ==> Spent(x)
      ensures forall j :: 0 <= j < |list| ==> Spent(list[j]) && list[j] !in live
    {
      forall j | 0 <= j < |list|
        ensures Spent(list[j]) && list[j] !in live
      {
        assert list[j] in list;
      }
    }

    /** The blocks a walk of the shape meets are closed by themselves. */
    lemma ShedTheRest()
      requires Steady()
      ensures Sound(vol.src.blocks, g, alloc.Free(), shape.Members(), vol.root)
    {
      GrownIsClosed(vol.src.blocks, shape);
      PagesAreOwned(vol.src.blocks, vol.f, g, shape, rank, vol.root);
    }

    // ---- Rebuilding a directory's cache -----------------------------------------------

    /** `p` is a place for block `i` of the rebuilt chain: one of the chain's own blocks, or
        a block nothing points to. */
    ghost predicate Fair(was: seq<Lba>, i: nat, p: Place)
      reads this, alloc`words
    {
      && (i < |was| ==> if p.Stay? then p.lba == was[i] else i > 0 && p.was == Some(was[i]))
      && (i >= |was| ==> p.Move? && p.was == None)
      && (p.Move? ==> Unused(p.to.lba)) && (p.Stay? ==> shape.Owns(p.lba))
      && Target(p) !in alloc.Free() && alloc.IsCovered(Target(p))
    }

    /** Where the blocks of the rebuilt chain will be, settled before anything is written:
        no two in one place. */
    ghost predicate Housed(was: seq<Lba>, places: seq<Place>)
      reads this, alloc`words
    {
      && (forall i :: 0 <= i < |places| ==> Fair(was, i, places[i]))
      && forall i, j :: 0 <= i < j < |places| ==> Target(places[i]) != Target(places[j])
    }

    ghost predicate OwnCache(was: seq<Lba>)
      reads this`shape, alloc`words
    {
      NoRepeats(was) && forall b :: b in was ==> shape.Owns(b) && b !in alloc.Free() && alloc.IsCovered(b)
    }

    lemma SettledOn(was: seq<Lba>, places: seq<Place>, p: Place)
      requires OwnCache(was) && Housed(was, places) && Fair(was, |places|, p)
      requires p.Move? ==> forall i :: 0 <= i < |places| && places[i].Move? ==> places[i].to.lba != p.to.lba
      ensures Housed(was, places + [p])
    {
      hide Unused;
      var more := places + [p];
      forall i | 0 <= i < |places|
        ensures Target(places[i]) != Target(p)
      {
        assert Fair(was, i, places[i]);
        UnusedIsNotOwned();
      }
      forall i, j | 0 <= i < j < |more|
        ensures Target(more[i]) != Target(more[j])
      {}
    }

    lemma UnusedIsNotOwned()
      ensures forall x :: Unused(x) ==> !shape.Owns(x) && x !in live
    {}

    /** The blocks drawn for the places. */
    static function DrawnFor(places: seq<Place>): set<Lba> {
      set i | 0 <= i < |places| && places[i].Move? :: places[i].to.lba
    }

    static lemma DrawnMore(places: seq<Place>, p: Place)
      ensures DrawnFor(places + [p]) == DrawnFor(places) + if p.Move? then {p.to.lba} else {}
      ensures DrawnFor([]) == {}
    {
      var more := places + [p];
      forall x: Lba
        ensures x in DrawnFor(more) <==> x in DrawnFor(places) || (p.Move? && x == p.to.lba)
      {
        if x in DrawnFor(places) {
          var i :| 0 <= i < |places| && places[i].Move? && places[i].to.lba == x;
          assert more[i] == places[i];
        }
        assert more[|places|] == p;
      }
    }

    /** Settle one of the chain's own blocks: where it is, or nearer to its directory. */
    method SettleOwn(dir: Lba, was: seq<Lba>, places: seq<Place>, pull: bool) returns (p: Place)
      requires Valid() && OwnCache(was) && Housed(was, places) && |places| < |was| && (pull ==> |places| > 0)
      modifies alloc`words, alloc`free, alloc`dirty, alloc`cursor
      ensures Valid() && OwnCache(was) && Housed(was, places + [p]) && (!pull ==> p.Stay?)
      ensures p.Move? ==> p.to.lba in old(alloc.Free())
      ensures alloc.Covered() == old(alloc.Covered()) && alloc.Free() == old(alloc.Free()) - if p.Move? then {p.to.lba}
                else {}
    {
      hide Steady, Rooted, Unused, Kept;
      var own := was[|places|];
      p := Stay(own);
      if pull {
        ghost var free := alloc.Free();
        var a := AllocateNear(vol.root);
        if a.Ok? {
          if Distance(a.value.lba, dir) < Distance(own, dir) {
            p := Move(a.value, Some(own));
          } else {
            SpentIfUnused(a.value.lba);
            var given := FreeOne(a.value.lba);
            assert alloc.Free() == free;
          }
        }
      }
      SettledOn(was, places, p);
    }

    lemma SpentIfUnused(x: Lba)
      requires Unused(x) && alloc.IsCovered(x) && x !in alloc.Free()
      ensures Spent(x) && x !in live
    {}

    /** Settle where the blocks of the rebuilt chain go: the chain's own blocks, some of
        them pulled nearer to the directory where the session asks for that, and as many
        new ones as the pages need. */
    method Settle(dir: Lba, was: seq<Lba>, n: nat) returns (r: Result<seq<Place>, MutateError>)
      requires Valid() && OwnCache(was)
      modifies alloc`words, alloc`free, alloc`dirty, alloc`cursor
      ensures Valid() && OwnCache(was)
      ensures r.Ok? ==> |r.value| == (if |was| < n then n else |was|) && Housed(was, r.value)
      ensures r.Ok? ==> forall i :: n <= i < |r.value| ==> r.value[i].Stay?
      ensures r.Ok? ==> forall i :: 0 <= i < |r.value| && r.value[i].Move? ==> r.value[i].to.lba in old(alloc.Free())
      ensures r.Ok? ==> DrawnFor(r.value) <= old(alloc.Free()) && alloc.Free() == old(alloc.Free()) - DrawnFor(r.value)
      ensures alloc.Covered() == old(alloc.Covered()) && alloc.Free() <= old(alloc.Free())
    {
      hide Valid, Fair, Unused, DrawnFor;
      var places: seq<Place> := [];
      DrawnMore([], Stay(0));
      while |places| < |was|
        invariant |places| <= |was| && Valid() && OwnCache(was) && Housed(was, places)
        invariant forall i :: n <= i < |places| ==> places[i].Stay?
        invariant forall i :: 0 <= i < |places| && places[i].Move? ==> places[i].to.lba in old(alloc.Free())
        invariant alloc.Covered() == old(alloc.Covered())
        invariant DrawnFor(places) <= old(alloc.Free()) && alloc.Free() == old(alloc.Free()) - DrawnFor(places)
        decreases |was| - |places|
      {
        var p := SettleOwn(dir, was, places, layoutPolicy && 0 < |places| < n);
        DrawnMore(places, p);
        places := places + [p];
      }
      var hint := dir;
      while |places| < n
        invariant |was| <= |places| && (|places| <= n || |places| == |was|)
        invariant Valid() && OwnCache(was) && Housed(was, places)
        invariant forall i :: n <= i < |places| ==> places[i].Stay?
        invariant forall i :: 0 <= i < |places| && places[i].Move? ==> places[i].to.lba in old(alloc.Free())
        invariant alloc.Covered() == old(alloc.Covered())
        invariant DrawnFor(places) <= old(alloc.Free()) && alloc.Free() == old(alloc.Free()) - DrawnFor(places)
        decreases n - |places|
      {
        var a := SettleNew(hint, was, places);
        if a.Err? {
          return Err(a.error);
        }
        hint := Target(a.value);
        DrawnMore(places, a.value);
        places := places + [a.value];
      }
      r := Ok(places);
    }

    method SettleNew(hint: nat, was: seq<Lba>, places: seq<Place>) returns (r: Result<Place, MutateError>)
      requires Valid() && OwnCache(was) && Housed(was, places) && |places| >= |was|
      modifies alloc`words, alloc`free, alloc`dirty, alloc`cursor
      ensures Valid() && OwnCache(was)
      ensures r.Ok? ==> Housed(was, places + [r.value]) && r.value.Move? && r.value.to.lba in old(alloc.Free())
      ensures r.Ok? ==> alloc.Free() == old(alloc.Free()) - {r.value.to.lba}
      ensures alloc.Covered() == old(alloc.Covered()) && alloc.Free() <= old(alloc.Free())
    {
      hide Steady, Rooted, Unused, Kept;
      var a := AllocateNear(hint);
      if a.Err? {
        return Err(a.error);
      }
      SettledOn(was, places, Move(a.value, None));
      r := Ok(Move(a.value, None));
    }

    /** A block that is the operation's own: the bitmap calls it allocated, in memory and
        on the disk, and nothing in use points to it. */
    ghost predicate Mine(x: Lba)
      reads this`live, this`shape, this`base, this`origin, this`busy, vol.src, alloc`words
    {
      Unused(x) && alloc.IsCovered(x) && x !in alloc.Free() && !FreeOnDisk(vol.src.blocks, g, x)
    }

    /** A block in hand is not one the allocator will hand out. */
    lemma MinesDiffer(x: Lba)
      requires Mine(x)
      ensures x !in alloc.Free() && x < |base|
    {}

    lemma MineFacts(x: Lba)
      requires Mine(x)
      ensures 0 < x < |base| && x !in live && !shape.Owns(x) && (origin.Owns(x) && x !in busy ==> !BearsFile(base[x]))
    {}

    /** A block of the cache in use. */
    ghost predicate Standing(x: Lba)
      reads this`live, this`base, this`origin, this`busy, vol.src
    {
      && x in live && 0 < x < |vol.src.blocks| && x < |base| && vol.src.blocks[x].Cache?
      && (origin.Owns(x) && x !in busy ==> !BearsFile(base[x]))
    }

    /** Write one block of a cache chain, the one it goes on in being there already. */
    method PutCache(dir: Lba, x: Lba, records: seq<Record>, next: Lba)
      requires Ready() && (Mine(x) || Standing(x)) && (next == 0 || next in live)
      modifies this`live, vol.src
      ensures Ready() && live == old(live) + {x}
      ensures vol.src.blocks == old(vol.src.blocks)[x := Cache(x, dir, records, next)]
      ensures forall y :: FreeOnDisk(vol.src.blocks, g, y) <==> FreeOnDisk(old(vol.src.blocks), g, y)
      ensures forall y :: y != x && old(Mine(y)) ==> Mine(y)
      ensures forall y :: y != x && old(Standing(y)) ==> Standing(y)
      ensures 0 < x < |vol.src.blocks| == |old(vol.src.blocks)|
    {
      hide Logged, Spares, Held, FreeOnDisk, FreeBit, Told, Legible;
      CacheIsTold(x, Cache(x, dir, records, next));
      Put(x, Cache(x, dir, records, next));
      JoinIsSound(vol.src.blocks, g, alloc.Free(), live, vol.root, {x});
      live := live + {x};
    }

    /** A cache block says nothing a search of the directories looks at. */
    lemma CacheIsTold(x: Lba, b: Block)
      requires Ready() && (Mine(x) || Standing(x)) && x < |vol.src.blocks| && b.Cache?
      ensures Legible(vol.src.blocks[x := b], shape, rank)
    {
      hide Sound, Logged, Spares, Held, FreeOnDisk, Legible, Shown;
      forall y: Lba | shape.Owns(y) && y < |vol.src.blocks|
        ensures Alike(vol.src.blocks[y], vol.src.blocks[x := b][y])
      {
        AlikeItself(vol.src.blocks[y]);
      }
      LegibleAlike(vol.src.blocks[x := b]);
    }

    /** The blocks `blocks[i..]` of the chain hold their pages and the pointers along it,
        and nothing else differs from `d`. */
    static ghost predicate WrittenFrom(d: Disk, e: Disk, dir: Lba, blocks: seq<Lba>, pages: seq<seq<Record>>, i: nat) {
      && |e| == |d| && |blocks| == |pages|
      && (forall j :: i <= j < |blocks| ==> PageAt(e, dir, blocks, pages, j))
      && (forall x: Lba :: x < |d| && x !in blocks ==> e[x] == d[x])
      && (forall j :: 0 <= j < i && j < |blocks| && blocks[j] < |d| ==> e[blocks[j]] == d[blocks[j]])
    }

    static predicate PageAt(e: Disk, dir: Lba, blocks: seq<Lba>, pages: seq<seq<Record>>, j: nat)
      requires j < |blocks| == |pages|
    {
      0 < blocks[j] < |e| && e[blocks[j]] == Cache(blocks[j], dir, pages[j], NextIn(blocks, j, 0))
    }

    static lemma WrittenOneMore(d: Disk, e: Disk, dir: Lba, blocks: seq<Lba>, pages: seq<seq<Record>>, i: nat)
      requires NoRepeats(blocks) && WrittenFrom(d, e, dir, blocks, pages, i + 1) && i < |blocks|
      requires 0 < blocks[i] < |e|
      ensures WrittenFrom(d, e[blocks[i] := Cache(blocks[i], dir, pages[i], NextIn(blocks, i, 0))], dir, blocks, pages,
                i)
    {
      var c := e[blocks[i] := Cache(blocks[i], dir, pages[i], NextIn(blocks, i, 0))];
      forall j | i < j < |blocks|
        ensures PageAt(c, dir, blocks, pages, j)
      {
        assert PageAt(e, dir, blocks, pages, j);
      }
    }

    /** Write the chain last block first, so that every pointer names a block that is
        already there. */
    method WriteChain(dir: Lba, blocks: seq<Lba>, pages: seq<seq<Record>>)
      requires Ready() && NoRepeats(blocks) && |blocks| == |pages|
      requires forall i :: 0 <= i < |blocks| ==> Mine(blocks[i]) || Standing(blocks[i])
      modifies this`live, vol.src
      ensures Ready() && live == old(live) + SetOf(blocks)
      ensures WrittenFrom(old(vol.src.blocks), vol.src.blocks, dir, blocks, pages, 0)
      ensures forall y :: FreeOnDisk(vol.src.blocks, g, y) <==> FreeOnDisk(old(vol.src.blocks), g, y)
    {
      hide Ready, FreeOnDisk, WrittenFrom, SetOf, Mine, Standing, NextIn;
      ghost var d := vol.src.blocks;
      NothingWritten(d, dir, blocks, pages);
      var i := |blocks|;
      while i > 0
        invariant 0 <= i <= |blocks| && Ready()
        invariant WrittenFrom(d, vol.src.blocks, dir, blocks, pages, i)
        invariant live == old(live) + SetOf(blocks[i..])
        invariant forall j :: 0 <= j < i ==> Mine(blocks[j]) || Standing(blocks[j])
        invariant forall y :: FreeOnDisk(vol.src.blocks, g, y) <==> FreeOnDisk(d, g, y)
      {
        i := i - 1;
        ghost var before := vol.src.blocks;
        SetOfRest(blocks, i);
        PutCache(dir, blocks[i], pages[i], NextIn(blocks, i, 0));
        WrittenOneMore(d, before, dir, blocks, pages, i);
      }
      assert blocks[0..] == blocks;
    }

    static lemma NothingWritten(d: Disk, dir: Lba, blocks: seq<Lba>, pages: seq<seq<Record>>)
      requires |blocks| == |pages|
      ensures WrittenFrom(d, d, dir, blocks, pages, |blocks|) && SetOf(blocks[|blocks|..]) == {}
    {}

    static lemma SetOfRest(blocks: seq<Lba>, i: nat)
      requires i < |blocks|
      ensures SetOf(blocks[i..]) == SetOf(blocks[i + 1..]) + {blocks[i]}
      ensures NextIn(blocks, i, 0) == 0 || NextIn(blocks, i, 0) in SetOf(blocks[i + 1..])
    {
      assert blocks[i..] == [blocks[i]] + blocks[i + 1..];
      if i + 1 < |blocks| { assert blocks[i + 1..][0] == blocks[i + 1]; }
    }

    /** The block numbers of the settled places, each refused until the bitmap page that
        carries its bit is on the disk. */
    method Refer(places: seq<Place>) returns (r: Result<seq<Lba>, MutateError>)
      ensures r.Ok? ==> |r.value| == |places| && forall i :: 0 <= i < |places| ==> r.value[i] == Target(places[i])
      ensures (forall i :: 0 <= i < |alloc.dirty| ==> !alloc.dirty[i]) ==> r.Ok?
    {
      var out: seq<Lba> := [];
      while |out| < |places|
        invariant |out| <= |places| && forall i :: 0 <= i < |out| ==> out[i] == Target(places[i])
        decreases |places| - |out|
      {
        match places[|out|] {
          case Stay(lba) => out := out + [lba];
          case Move(to, _) =>
            var ref := alloc.Reference(to);
            if ref.Err? {
              return Err(Alloc(ref.error));
            }
            out := out + [ref.value];
        }
      }
      r := Ok(out);
    }

    /** The record of every entry. */
    method CacheRecords(entries: seq<Lba>) returns (records: seq<Record>)
      requires AllHeaders(vol.src.blocks, entries)
      ensures records == RecordsFor(vol.src.blocks, entries)
    {
      records := [];
      while |records| < |entries|
        invariant |records| <= |entries|
        invariant forall i :: 0 <= i < |records| ==>
                  entries[i] in entries && records[i] == RecordOf(vol.src.blocks, entries[i])
        decreases |entries| - |records|
      {
        assert entries[|records|] in entries;
        records := records + [RecordOf(vol.src.blocks, entries[|records|])];
      }
    }

    /** What `places` no longer has a use for, once the chain has `n` blocks. */
    method Leftovers(was: seq<Lba>, places: seq<Place>, n: nat) returns (list: seq<Lba>)
      requires Housed(was, places) && OwnCache(was) && |was| <= |places|
      requires forall i :: n <= i < |places| ==> places[i].Stay?
      ensures NoRepeats(list) && SetOf(list) == SetOf(was) - Targets(places, n)
    {
      hide Unused, OwnCache;
      OwnCacheFacts(was);
      list := [];
      var i := 0;
      while i < |was|
        invariant 0 <= i <= |was| && NoRepeats(list)
        invariant forall x :: x in list <==> x in was[..i] && x !in Targets(places, n)
      {
        assert Fair(was, i, places[i]) && was[..i + 1] == was[..i] + [was[i]];
        if i >= n || places[i].Move? {
          NotATarget(was, places, n, i);
          assert was[i] !in was[..i];
          list := list + [was[i]];
        } else {
          assert Target(places[i]) in Targets(places, n);
        }
        i := i + 1;
      }
      assert was[..i] == was;
    }

    /** Where the first `n` blocks of the chain will be. */
    static function Targets(places: seq<Place>, n: nat): set<Lba> {
      set i | 0 <= i < |places| && i < n :: Target(places[i])
    }

    lemma OwnCacheFacts(was: seq<Lba>)
      requires OwnCache(was)
      ensures NoRepeats(was) && forall i :: 0 <= i < |was| ==> was[i] in was && shape.Owns(was[i])
    {}

    lemma NotATarget(was: seq<Lba>, places: seq<Place>, n: nat, i: nat)
      requires Housed(was, places) && i < |was| <= |places| && (i >= n || places[i].Move?)
      requires NoRepeats(was) && (forall j :: 0 <= j < |was| ==> shape.Owns(was[j]))
      requires n <= i ==> places[i].Stay?
      ensures was[i] !in Targets(places, n)
    {
      hide Unused;
      UnusedIsNotOwned();
      forall k | 0 <= k < |places| && k < n
        ensures Target(places[k]) != was[i]
      {
        assert Fair(was, k, places[k]) && Fair(was, i, places[i]);
      }
    }

    /** Rebuild a directory's whole cache from its hash chains. */
    method RefreshDircache(dir: Lba) returns (r: Result<(), MutateError>)
      requires Valid() && IsFolder(vol.src.blocks, shape, dir)
      modifies this`live, this`shape, vol.src, alloc
      ensures Valid() && Entries() == old(Entries()) && shape.orphans == old(shape.orphans)
      ensures Carries(old(vol.src.blocks), old(shape), vol.src.blocks, shape)
      ensures forall x :: old(Spent(x)) ==> Spent(x)
      ensures !vol.f.dircache ==>
                r.Ok? && vol.src.blocks == old(vol.src.blocks) && shape == old(shape)
                && alloc.Free() == old(alloc.Free())
      ensures r.Ok? && vol.f.dircache ==> Mirrors(vol.src.blocks, vol.f, shape, dir)
      ensures r.Ok? && vol.f.dircache ==>
                CacheTraded(old(vol.src.blocks), old(alloc.Free()), vol.src.blocks, alloc.Free(), dir)
      ensures OnlyCacheOf(old(vol.src.blocks), old(shape), dir, vol.src.blocks, shape)
    {
      hide Valid, Spent, Mirrors, Carries, IsFolder, Tree, OnlyCacheOf;
      CarriesItself(vol.src.blocks, shape);
      OnlyCacheAtFirst(vol.src.blocks, shape, dir);
      if !vol.f.dircache {
        return Ok(());
      }
      r := Regenerate(dir);
    }

    method Regenerate(dir: Lba) returns (r: Result<(), MutateError>)
      requires Valid() && IsFolder(vol.src.blocks, shape, dir) && vol.f.dircache
      modifies this`live, this`shape, vol.src, alloc
      ensures Valid() && Entries() == old(Entries()) && shape.orphans == old(shape.orphans)
      ensures Carries(old(vol.src.blocks), old(shape), vol.src.blocks, shape)
      ensures forall x :: old(Spent(x)) ==> Spent(x)
      ensures r.Ok? ==> Mirrors(vol.src.blocks, vol.f, shape, dir)
      ensures r.Ok? ==> CacheTraded(old(vol.src.blocks), old(alloc.Free()), vol.src.blocks, alloc.Free(), dir)
      ensures OnlyCacheOf(old(vol.src.blocks), old(shape), dir, vol.src.blocks, shape)
    {
      hide Valid, Spent, Mirrors, Carries, IsFolder, Tree, Housed, OwnCache, IsCacheOf, ListsFolder, RecordsFor,
        Concat, Fitting, FreeOnDisk, OnlyCacheOf,
        DrawnFor, Traded;
      ghost var d, s := vol.src.blocks, shape;
      SpentIsNotFree();
      CarriesItself(d, s);
      OnlyCacheAtFirst(d, s, dir);
      var gathered := Gather(dir);
      if gathered.Err? {
        return Err(gathered.error);
      }
      var (entries, pages, was) := gathered.value;
      var places := PlanCache(dir, was, |pages|, entries);
      if places.Err? {
        return Err(places.error);
      }
      ghost var e := vol.src.blocks;
      var refs := Refer(places.value);
      if refs.Err? {
        return Err(refs.error);
      }
      TargetsNotSpent(was, places.value, old(alloc.Free()));
      r := Rebuild(dir, was, places.value, refs.value, pages, entries, old(alloc.Free()));
      CarriesOn(d, s, e, s, vol.src.blocks, shape);
      OnlyCacheOn(d, s, dir, e, s, vol.src.blocks, shape);
    }

    /** Write the chain, point the directory at it where it had none, then give back what
        the chain no longer uses. */
    method Rebuild(dir: Lba, was: seq<Lba>, places: seq<Place>, blocks: seq<Lba>, pages: seq<seq<Record>>,
            ghost entries: seq<Lba>, ghost free: set<Lba>)
      returns (r: Result<(), MutateError>)
      requires DrawnFor(places) <= free && alloc.Free() == free - DrawnFor(places)
      requires Valid() && IsFolder(vol.src.blocks, shape, dir) && IsCacheOf(vol.src.blocks, dir, was)
      requires ListsFolder(vol.src.blocks, shape, dir, entries) && AllHeaders(vol.src.blocks, entries)
      requires |pages| > 0 && Concat(pages) == RecordsFor(vol.src.blocks, entries)
      requires forall i :: 0 <= i < |pages| ==> Fitting(pages[i], vol.f.room)
      requires OwnCache(was) && |places| == |blocks| == (if |was| < |pages| then |pages| else |was|)
                && Housed(was, places)
      requires forall i :: 0 <= i < |places| ==> blocks[i] == Target(places[i])
      requires forall i :: |pages| <= i < |places| ==> places[i].Stay?
      requires forall i :: 0 <= i < |places| && places[i].Move? ==> !FreeOnDisk(vol.src.blocks, g, places[i].to.lba)
      modifies this`live, this`shape, vol.src, alloc
      ensures Valid() && Entries() == old(Entries()) && shape.orphans == old(shape.orphans)
      ensures Carries(old(vol.src.blocks), old(shape), vol.src.blocks, shape)
      ensures r.Ok? ==> Mirrors(vol.src.blocks, vol.f, shape, dir)
      ensures forall x :: old(Spent(x)) && x !in blocks ==> Spent(x)
      ensures exists chain :: IsCacheOf(vol.src.blocks, dir, chain) && Traded(free, was, alloc.Free(), chain)
      ensures OnlyCacheOf(old(vol.src.blocks), old(shape), dir, vol.src.blocks, shape)
    {
      hide Ready, Orderly, Kept, Rooted, FreeOnDisk, Mirrors, MirrorsIn, Housed, OwnCache, IsCacheOf, ListsFolder,
        Mine, Standing, Spent,
        NoRepeats, Fitting, Concat, RecordsFor, Idle, Tree, IsFolder, DrawnFor, Traded, Targets, SetOf, OnlyCacheOf;
      var chain := blocks[..|pages|];
      ChainIsWritable(dir, was, places, chain);
      SpareFacts(dir, was);
      var spare := Leftovers(was, places, |pages|);
      ghost var was0, s := vol.src.blocks, shape;
      assert forall x :: x in chain ==> x in blocks;
      TradeSums(was, places, chain, free);
      SpareAside(was, places, chain, spare);
      RewriteChain(dir, was, chain, pages, entries);
      ghost var e := vol.src.blocks;
      SpareIsSpent(spare);
      r := FreeAll(spare);
      TradeBalances(free, was, DrawnFor(places), chain, alloc.Free());
      FlushMirrored(dir, entries, chain);
      FlushIsOnlyPages(e, shape, dir, vol.src.blocks);
      OnlyCacheOn(was0, s, dir, e, shape, vol.src.blocks, shape);
    }

    lemma SpareAside(was: seq<Lba>, places: seq<Place>, chain: seq<Lba>, spare: seq<Lba>)
      requires SetOf(spare) == SetOf(was) - Targets(places, |chain|) && |chain| <= |places|
                && forall i :: 0 <= i < |chain| ==>
                chain[i] == Target(places[i])
      ensures SetOf(spare) == SetOf(was) - SetOf(chain) && forall x :: x in spare ==> x in was && x !in chain
    {
      forall x: Lba
        ensures x in SetOf(chain) <==> x in Targets(places, |chain|)
      {
        if x in SetOf(chain) { var i :| 0 <= i < |chain| && chain[i] == x; }
      }
      forall x | x in spare
        ensures x in was && x !in chain
      {
        assert x in SetOf(spare);
      }
    }

    /** What is drawn goes into the chain; what the chain holds was drawn or was its own. */
    lemma TradeSums(was: seq<Lba>, places: seq<Place>, chain: seq<Lba>, free: set<Lba>)
      requires Housed(was, places) && OwnCache(was) && |chain| <= |places| && alloc.Free() == free - DrawnFor(places)
                && DrawnFor(places) <= free
      requires (forall i :: 0 <= i < |chain| ==> chain[i] == Target(places[i]))
                && forall i :: |chain| <= i < |places| ==> places[i].Stay?
      ensures free !! SetOf(was) && DrawnFor(places) <= SetOf(chain) <= DrawnFor(places) + SetOf(was)
    {
      hide Unused;
      UnusedIsNotOwned();
      forall x: Lba | x in DrawnFor(places)
        ensures x in SetOf(chain) && x !in SetOf(was)
      {
        var i :| 0 <= i < |places| && places[i].Move? && places[i].to.lba == x;
        assert chain[i] == x && Fair(was, i, places[i]);
      }
      forall x: Lba | x in SetOf(chain)
        ensures x in DrawnFor(places) + SetOf(was)
      {
        var i :| 0 <= i < |chain| && chain[i] == x;
        assert Fair(was, i, places[i]);
        if places[i].Stay? && i < |was| { assert was[i] == x; }
      }
    }

    /** The writes of a rebuild, after which the directory has its new cache and nothing
        points to what is left of the old one. */
    method RewriteChain(dir: Lba, was: seq<Lba>, chain: seq<Lba>, pages: seq<seq<Record>>, ghost entries: seq<Lba>)
      requires Valid() && IsFolder(vol.src.blocks, shape, dir) && IsCacheOf(vol.src.blocks, dir, was)
      requires ListsFolder(vol.src.blocks, shape, dir, entries) && AllHeaders(vol.src.blocks, entries)
      requires 0 < |pages| == |chain| && Concat(pages) == RecordsFor(vol.src.blocks, entries)
      requires forall i :: 0 <= i < |pages| ==> Fitting(pages[i], vol.f.room)
      requires NoRepeats(chain) && dir !in chain && (was != [] ==> chain[0] == was[0])
      requires forall i :: 0 <= i < |chain| ==> Mine(chain[i]) || Standing(chain[i])
      requires forall b: Lba :: b in chain ==> (b in was || !shape.Owns(b)) && alloc.IsCovered(b) && b !in alloc.Free()
      modifies this`live, this`shape, vol.src
      ensures Valid() && Entries() == old(Entries()) && IsFolder(vol.src.blocks, shape, dir)
                && shape.orphans == old(shape.orphans)
      ensures Carries(old(vol.src.blocks), old(shape), vol.src.blocks, shape)
      ensures MirrorsIn(vol.src.blocks, vol.f, shape, dir, entries, chain)
      ensures forall x: Lba :: x in was && x !in chain ==> !shape.Owns(x)
      ensures forall x :: old(Spent(x)) && x !in chain ==> Spent(x)
      ensures OnlyCacheOf(old(vol.src.blocks), old(shape), dir, vol.src.blocks, shape)
    {
      hide Ready, Orderly, Kept, Rooted, FreeOnDisk, MirrorsIn, IsCacheOf, ListsFolder, WrittenFrom, Rebuilt,
        Mine, Standing, NoRepeats, Recached, Fitting, Concat, RecordsFor, OnlyCacheOf;
      ghost var d := vol.src.blocks;
      ViewNow();
      WriteChain(dir, chain, pages);
      ghost var w := vol.src.blocks;
      if was == [] {
        PutPointer(dir, chain[0], d, chain, pages);
      }
      WrittenIsRebuilt(d, shape, dir, was, chain, pages, w, vol.src.blocks);
      Recache(d, dir, was, chain, pages, entries);
    }

    method FlushMirrored(dir: Lba, ghost entries: seq<Lba>, ghost chain: seq<Lba>)
      requires Valid() && MirrorsIn(vol.src.blocks, vol.f, shape, dir, entries, chain)
                && IsFolder(vol.src.blocks, shape, dir)
      modifies vol.src, alloc`dirty
      ensures Valid() && Entries() == old(Entries()) && Mirrors(vol.src.blocks, vol.f, shape, dir)
                && IsCacheOf(vol.src.blocks, dir, chain)
      ensures Carries(old(vol.src.blocks), shape, vol.src.blocks, shape)
      ensures |vol.src.blocks| == |old(vol.src.blocks)|
      ensures forall x: Lba :: x < |vol.src.blocks| && vol.src.blocks[x] != old(vol.src.blocks)[x] ==>
                old(vol.src.blocks)[x].Bitmap? && vol.src.blocks[x].Bitmap?
    {
      hide Ready, Orderly, Kept, Rooted, FreeOnDisk, Mirrors, MirrorsIn, IsCacheOf;
      ghost var e := vol.src.blocks;
      PagesNow();
      InOrderNow();
      FlushBitmap();
      FlushKeepsMirror(e, vol.f, shape, dir, entries, chain, vol.src.blocks, g);
      Mirrored(dir, entries, chain);
    }

    lemma Mirrored(dir: Lba, entries: seq<Lba>, chain: seq<Lba>)
      requires MirrorsIn(vol.src.blocks, vol.f, shape, dir, entries, chain)
      ensures Mirrors(vol.src.blocks, vol.f, shape, dir) && IsCacheOf(vol.src.blocks, dir, chain)
    {}

    lemma ChainIsWritable(dir: Lba, was: seq<Lba>, places: seq<Place>, chain: seq<Lba>)
      requires Valid() && IsFolder(vol.src.blocks, shape, dir) && IsCacheOf(vol.src.blocks, dir, was)
      requires OwnCache(was) && Housed(was, places) && 0 < |chain| <= |places| && |was| <= |places|
      requires forall i :: 0 <= i < |chain| ==> chain[i] == Target(places[i])
      requires forall i :: 0 <= i < |places| && places[i].Move? ==> !FreeOnDisk(vol.src.blocks, g, places[i].to.lba)
      ensures NoRepeats(chain) && dir !in chain && (was != [] ==> chain[0] == was[0])
      ensures forall i :: 0 <= i < |chain| ==> Mine(chain[i]) || Standing(chain[i])
      ensures forall b: Lba :: b in chain ==> (b in was || !shape.Owns(b)) && alloc.IsCovered(b) && b !in alloc.Free()
    {
      WasStanding(dir, was);
      WasOwned(dir, was);
      UnusedIsNotOwned();
      hide Unused, Standing, Steady, Rooted, OwnCache, FreeOnDisk;
      forall i | 0 <= i < |chain|
        ensures Mine(chain[i]) || Standing(chain[i])
        ensures (chain[i] in was || !shape.Owns(chain[i])) && alloc.IsCovered(chain[i]) && chain[i] !in alloc.Free()
                  && chain[i] != dir
      {
        assert Fair(was, i, places[i]);
        if places[i].Stay? {
          if i >= |was| { assert false; }
          assert chain[i] == was[i] && was[i] in was;
        }
      }
      assert Fair(was, 0, places[0]);
    }

    /** The blocks a rebuild may have to give back. */
    lemma SpareFacts(dir: Lba, was: seq<Lba>)
      requires Valid() && IsFolder(vol.src.blocks, shape, dir) && IsCacheOf(vol.src.blocks, dir, was) && OwnCache(was)
      ensures forall x :: x in was ==> Idle(x) && !Spent(x)
    {
      WasStanding(dir, was);
      hide Ready;
    }

    /** Allocated, and nothing the operation must leave alone. */
    ghost predicate Idle(x: Lba)
      reads this`base, this`origin, this`busy, alloc`words
    {
      alloc.IsCovered(x) && x !in alloc.Free() && x < |base| && (origin.Owns(x) && x !in busy ==> !BearsFile(base[x]))
    }

    method PutPointer(dir: Lba, first: Lba, ghost d: Disk, ghost chain: seq<Lba>, ghost pages: seq<seq<Record>>)
      requires Ready() && dir in live && dir < |d| && IsDirectory(d[dir]) && first in live
      requires WrittenFrom(d, vol.src.blocks, dir, chain, pages, 0) && dir !in chain
      modifies vol.src
      ensures Ready() && dir < |old(vol.src.blocks)| && old(vol.src.blocks)[dir] == d[dir]
      ensures vol.src.blocks == old(vol.src.blocks)[dir := WithCache(old(vol.src.blocks)[dir], first)]
    {
      hide Told, Logged, Held, FreeOnDisk;
      ghost var e := vol.src.blocks;
      WithCacheIsSmall(e[dir], first);
      KeepsFileOn(dir, WithCache(e[dir], first));
      PointerIsTold(dir, first);
      assert PointsInto(e[dir], live);
      Put(dir, WithCache(vol.src.blocks[dir], first));
    }

    lemma PointerIsTold(dir: Lba, first: Lba)
      requires Ready() && dir < |vol.src.blocks| && IsDirectory(vol.src.blocks[dir])
      ensures Legible(vol.src.blocks[dir := WithCache(vol.src.blocks[dir], first)], shape, rank)
    {
      hide Sound, Logged, Spares, Held, FreeOnDisk, Legible, Shown;
      WithCacheIsAlike(vol.src.blocks[dir], first);
      forall y: Lba | shape.Owns(y) && y < |vol.src.blocks|
        ensures Alike(vol.src.blocks[y], vol.src.blocks[dir := WithCache(vol.src.blocks[dir], first)][y])
      {
        AlikeItself(vol.src.blocks[y]);
      }
      hide Alike, WithCache;
      LegibleAlike(vol.src.blocks[dir := WithCache(vol.src.blocks[dir], first)]);
    }

    static lemma WithCacheIsAlike(b: Block, first: Lba)
      requires IsDirectory(b)
      ensures Alike(b, WithCache(b, first))
    {}

    /** What kept a file as it now is keeps it as it was when the operation began. */
    lemma KeepsFileOn(x: Lba, b: Block)
      requires Ready() && x < |vol.src.blocks| && KeepsFile(vol.src.blocks[x], b)
      ensures x < |base| && (origin.Owns(x) && x !in busy ==> KeepsFile(base[x], b))
    {}

    static lemma WrittenIsRebuilt(d: Disk, s: Shape, dir: Lba, was: seq<Lba>, chain: seq<Lba>, pages: seq<seq<Record>>,
            w: Disk, e: Disk)
      requires WrittenFrom(d, w, dir, chain, pages, 0) && dir < |d| && IsDirectory(d[dir]) && dir !in chain
      requires 0 < |chain| && NoRepeats(chain) && e == (if was == [] then w[dir := WithCache(d[dir], chain[0])] else w)
      requires was != [] ==> chain[0] == was[0]
      requires forall b: Lba :: b in chain ==> b in was || !s.Owns(b)
      ensures Rebuilt(d, s, dir, was, chain, e)
      ensures forall i :: 0 <= i < |pages| ==> chain[i] < |e| && e[chain[i]].Cache? && e[chain[i]].records == pages[i]
    {
      forall i | 0 <= i < |chain|
        ensures CacheStep(e, dir, chain[i], NextIn(chain, i, 0)) && e[chain[i]].records == pages[i]
      {
        assert PageAt(w, dir, chain, pages, i) && chain[i] in chain;
      }
      forall x: Lba | s.Owns(x) && x !in SetOf(was) && x != dir && x < |d|
        ensures e[x] == d[x]
      {
        assert x !in chain;
      }
    }

    /** The shape takes the rebuilt chain in. */
    ghost method Recache(d: Disk, dir: Lba, was: seq<Lba>, chain: seq<Lba>, pages: seq<seq<Record>>, entries: seq<Lba>)
      requires Ready() && Orderly(d, vol.f, g, shape, rank, vol.root) && Rooted(d, shape) && shape.Members() <= live
      requires Kept(shape, alloc.reserved, alloc.reserved + alloc.Covered(), alloc.Free())
      requires IsFolder(d, shape, dir) && IsCacheOf(d, dir, was) && Rebuilt(d, shape, dir, was, chain, vol.src.blocks)
      requires forall b: Lba :: b in chain ==> b in live && alloc.IsCovered(b) && b !in alloc.Free()
      requires ListsFolder(d, shape, dir, entries) && AllHeaders(d, entries) && |chain| == |pages|
                && Concat(pages) == RecordsFor(d, entries)
      requires forall i :: 0 <= i < |pages| ==>
                 && Fitting(pages[i], vol.f.room) && chain[i] < |vol.src.blocks| && vol.src.blocks[chain[i]].Cache?
                 && vol.src.blocks[chain[i]].records == pages[i]
      requires Tree(d, shape) in views
      modifies this`shape
      ensures Valid() && shape.orphans == old(shape.orphans) && Entries() == Tree(d, old(shape))
      ensures Carries(d, old(shape), vol.src.blocks, shape)
      ensures MirrorsIn(vol.src.blocks, vol.f, shape, dir, entries, chain) && IsFolder(vol.src.blocks, shape, dir)
      ensures forall x: Lba :: x in was && x !in chain ==> !shape.Owns(x)
      ensures forall x: Lba :: shape.Owns(x) ==> old(shape).Owns(x) || x in chain
      ensures OnlyCacheOf(d, old(shape), dir, vol.src.blocks, shape)
    {
      hide *;
      ghost var s := shape;
      RecacheFacts(d, vol.f, g, s, rank, vol.root, dir, was, chain, vol.src.blocks, entries, pages);
      ChainIsKept(d, s, dir, was, chain);
      TakeShape(Recached(s, dir, was, chain));
      Recognised(d, s);
      RecachedOrphans(s, dir, was, chain);
    }

    static lemma RecachedOrphans(s: Shape, dir: Lba, was: seq<Lba>, chain: seq<Lba>)
      ensures Recached(s, dir, was, chain).orphans == s.orphans
    {}

    lemma Recognised(d: Disk, s: Shape)
      requires Ready() && Orderly(vol.src.blocks, vol.f, g, shape, rank, vol.root) && Rooted(vol.src.blocks, shape)
      requires Kept(shape, alloc.reserved, alloc.reserved + alloc.Covered(), alloc.Free()) && shape.Members() <= live
      requires Tree(vol.src.blocks, shape) == Tree(d, s)
      ensures Valid() && Entries() == Tree(d, s)
    {
      hide Ready, Orderly, Rooted, Kept, Tree;
    }

    lemma ChainIsKept(d: Disk, s: Shape, dir: Lba, was: seq<Lba>, chain: seq<Lba>)
      requires Orderly(d, vol.f, g, s, rank, vol.root) && IsFolder(d, s, dir) && IsCacheOf(d, dir, was)
      requires Kept(s, alloc.reserved, alloc.reserved + alloc.Covered(), alloc.Free()) && s.Members() <= live
      requires Rebuilt(d, s, dir, was, chain, vol.src.blocks)
      requires forall b: Lba :: b in chain ==> b in live && alloc.IsCovered(b) && b !in alloc.Free()
      ensures Kept(Recached(s, dir, was, chain), alloc.reserved, alloc.reserved + alloc.Covered(), alloc.Free())
      ensures Recached(s, dir, was, chain).Members() <= live
      ensures forall x: Lba :: x in was && x !in chain ==> !Recached(s, dir, was, chain).Owns(x)
      ensures forall x: Lba :: Recached(s, dir, was, chain).Owns(x) ==> s.Owns(x) || x in chain
    {
      RebuiltIsKept(d, s, dir, was, chain, live, alloc.reserved, alloc.reserved + alloc.Covered(), alloc.Free());
    }

    static lemma RecacheFacts(d: Disk, f: Format, g: Geometry, s: Shape, rank: map<Lba, int>, root: Lba,
                              dir: Lba, was: seq<Lba>, chain: seq<Lba>, e: Disk, entries: seq<Lba>,
                                  pages: seq<seq<Record>>)
      requires Orderly(d, f, g, s, rank, root) && Rooted(d, s)
      requires IsFolder(d, s, dir) && IsCacheOf(d, dir, was) && Rebuilt(d, s, dir, was, chain, e)
      requires ListsFolder(d, s, dir, entries) && AllHeaders(d, entries) && |chain| == |pages|
                && Concat(pages) == RecordsFor(d, entries)
      requires forall i :: 0 <= i < |pages| ==>
                 && Fitting(pages[i], f.room) && chain[i] < |e| && e[chain[i]].Cache? && e[chain[i]].records == pages[i]
      ensures var t := Recached(s, dir, was, chain);
              && Orderly(e, f, g, t, rank, root) && Rooted(e, t) && Tree(e, t) == Tree(d, s)
              && MirrorsIn(e, f, t, dir, entries, chain) && IsFolder(e, t, dir) && Carries(d, s, e, t)
                  && OnlyCacheOf(d, s, dir, e, t)
    {
      RebuiltIsOnlyCache(d, s, dir, was, chain, e);
      RebuiltCarries(d, s, dir, was, chain, e);
      RebuiltKeepsOrder(d, f, g, s, rank, root, dir, was, chain, e);
      RebuiltMirrors(d, f, s, rank, dir, was, chain, e, entries, pages);
      FolderStays(d, s, e, Recached(s, dir, was, chain), dir);
    }

    static lemma FolderStays(d: Disk, s: Shape, e: Disk, t: Shape, dir: Lba)
      requires Grown(d, s) && Grown(e, t) && Tree(d, s) == Tree(e, t) && s.root == t.root && IsFolder(d, s, dir)
      ensures IsFolder(e, t, dir)
    {
      FolderInTree(d, s, dir);
      FolderInTree(e, t, dir);
    }

    static lemma RebuiltIsKept(d: Disk, s: Shape, dir: Lba, was: seq<Lba>, chain: seq<Lba>, live: set<Lba>, lo: nat,
            hi: nat, free: set<Lba>)
      requires Grown(d, s) && IsFolder(d, s, dir) && IsCacheOf(d, dir, was) && NoRepeats(chain)
      requires forall b: Lba :: b in chain ==> (b in was || !s.Owns(b)) && b in live && lo <= b < hi && b !in free
      requires Kept(s, lo, hi, free) && s.Members() <= live
      ensures Kept(Recached(s, dir, was, chain), lo, hi, free) && Recached(s, dir, was, chain).Members() <= live
      ensures forall x: Lba :: x in was && x !in chain ==> !Recached(s, dir, was, chain).Owns(x)
      ensures forall x: Lba :: Recached(s, dir, was, chain).Owns(x) ==> s.Owns(x) || x in chain
    {
      hide Grown, Strung, CacheEdges, CacheEdge, EdgeAt, HangsOff, NoRepeats, IsCacheOf;
      RebuiltEdges(d, s, dir, was, chain);
      CacheIsOwned(d, s, dir, was);
      CacheEdgesAre(dir, chain);
    }

    lemma SpareIsSpent(spare: seq<Lba>)
      requires forall x :: x in spare ==> Idle(x) && !shape.Owns(x)
      ensures forall x :: x in spare ==> Spent(x)
    {}

    /** Read what the rebuild is about: the directory's entries and their records in
        pages, from the chains, and the blocks of the cache there is. */
    method Gather(dir: Lba) returns (r: Result<(seq<Lba>, seq<seq<Record>>, seq<Lba>), MutateError>)
      requires Valid() && IsFolder(vol.src.blocks, shape, dir) && vol.f.dircache
      ensures r.Ok? ==>
                var (entries, pages, was) := r.value;
                && ListsFolder(vol.src.blocks, shape, dir, entries) && AllHeaders(vol.src.blocks, entries)
                && |pages| > 0 && Concat(pages) == RecordsFor(vol.src.blocks, entries)
                && (forall i :: 0 <= i < |pages| ==> Fitting(pages[i], vol.f.room))
                && IsCacheOf(vol.src.blocks, dir, was)
    {
      hide Ready, Orderly, Kept, Rooted, IsCacheOf, ListsFolder, Fitting, Concat, RecordsFor;
      InOrderNow();
      var listed := vol.ReadDir(dir, shape, rank);
      match listed {
        case Err(e) => r := Err(Read(e));
        case Ok(entries) =>
          var records := CacheRecords(entries);
          var pages := Pack(records, vol.f.room);
          var cache := vol.ReadDircache(dir);
          match cache {
            case Err(e) => r := Err(Read(e));
            case Ok(c) => r := Ok((entries, pages, c.0));
          }
      }
    }

    /** Settle the places and get the bitmap's pages onto the disk before any pointer to a
        new one is written. */
    method PlanCache(dir: Lba, was: seq<Lba>, n: nat, ghost entries: seq<Lba>)
            returns (r: Result<seq<Place>, MutateError>)
      requires Valid() && IsFolder(vol.src.blocks, shape, dir) && IsCacheOf(vol.src.blocks, dir, was)
      requires ListsFolder(vol.src.blocks, shape, dir, entries) && AllHeaders(vol.src.blocks, entries)
      modifies vol.src, alloc
      ensures Valid() && Entries() == old(Entries()) && Carries(old(vol.src.blocks), shape, vol.src.blocks, shape)
      ensures IsFolder(vol.src.blocks, shape, dir) && IsCacheOf(vol.src.blocks, dir, was)
      ensures ListsFolder(vol.src.blocks, shape, dir, entries) && AllHeaders(vol.src.blocks, entries)
      ensures RecordsFor(vol.src.blocks, entries) == RecordsFor(old(vol.src.blocks), entries)
      ensures r.Ok? ==> OwnCache(was) && |r.value| == (if |was| < n then n else |was|) && Housed(was, r.value)
      ensures r.Ok? ==> forall i :: n <= i < |r.value| ==> r.value[i].Stay?
      ensures r.Ok? ==> forall i :: 0 <= i < |r.value| && r.value[i].Move? ==>
                !FreeOnDisk(vol.src.blocks, g, r.value[i].to.lba)
      ensures r.Ok? ==> forall i :: 0 <= i < |r.value| && r.value[i].Move? ==> r.value[i].to.lba in old(alloc.Free())
      ensures r.Ok? ==> DrawnFor(r.value) <= old(alloc.Free()) && alloc.Free() == old(alloc.Free()) - DrawnFor(r.value)
      ensures OnlyCacheOf(old(vol.src.blocks), shape, dir, vol.src.blocks, shape)
      ensures forall x :: old(Spent(x)) ==> Spent(x)
    {
      hide DrawnFor, OnlyCacheOf;
      hide Ready, Orderly, Kept, Rooted, FreeOnDisk, IsCacheOf, ListsFolder, Fair, Unused, RecordsFor, OwnCache,
        SameWalk;
      WasOwned(dir, was);
      OnlyCacheAtFirst(vol.src.blocks, shape, dir);
      r := Settle(dir, was, n);
      if r.Ok? && exists i :: 0 <= i < |r.value| && r.value[i].Move? {
        ghost var d := vol.src.blocks;
        PagesNow();
        InOrderNow();
        FlushBitmap();
        FlushIsOnlyPages(d, shape, dir, vol.src.blocks);
        FlushKeepsRecords(d, shape, dir, entries, vol.src.blocks, g);
        FlushKeepsCache(d, dir, was, vol.src.blocks, g);
        FolderByTree(d, shape, vol.src.blocks, shape, dir, entries);
        SettledAreTaken(was, r.value);
      }
    }

    lemma SpentIsNotFree()
      ensures forall x :: Spent(x) ==> x !in alloc.Free()
    {}

    lemma TargetsNotSpent(was: seq<Lba>, places: seq<Place>, free: set<Lba>)
      requires Housed(was, places)
      requires forall i :: 0 <= i < |places| && places[i].Move? ==> places[i].to.lba in free
      ensures forall x, i :: Spent(x) && x !in free && 0 <= i < |places| ==> Target(places[i]) != x
    {
      hide Unused;
      forall x, i | Spent(x) && x !in free && 0 <= i < |places|
        ensures Target(places[i]) != x
      {
        assert Fair(was, i, places[i]);
      }
    }

    lemma SettledAreTaken(was: seq<Lba>, places: seq<Place>)
      requires Housed(was, places) && forall x :: FreeOnDisk(vol.src.blocks, g, x) <==> x in alloc.Free()
      ensures forall i :: 0 <= i < |places| ==> !FreeOnDisk(vol.src.blocks, g, Target(places[i]))
    {
      hide FreeOnDisk, Unused;
      forall i | 0 <= i < |places|
        ensures !FreeOnDisk(vol.src.blocks, g, Target(places[i]))
      {
        assert Fair(was, i, places[i]);
      }
    }

    lemma InOrderNow()
      requires Steady()
      ensures vol.f.slots > 0 && vol.f.payload > 0 && Grown(vol.src.blocks, shape)
                && InOrder(vol.src.blocks, vol.f, shape, rank)
    {}

    lemma WasOwned(dir: Lba, was: seq<Lba>)
      requires Steady() && IsFolder(vol.src.blocks, shape, dir) && IsCacheOf(vol.src.blocks, dir, was)
      ensures OwnCache(was) && dir !in was
    {
      CacheIsOwned(vol.src.blocks, shape, dir, was);
      hide Told, Grown, Named, Sound, Logged, Spares, Held, Strung, HangsOff;
      forall b | b in was
        ensures shape.Owns(b)
      {
        var i :| 0 <= i < |was| && was[i] == b;
      }
    }

    lemma WasStanding(dir: Lba, was: seq<Lba>)
      requires Steady() && IsFolder(vol.src.blocks, shape, dir) && IsCacheOf(vol.src.blocks, dir, was)
      ensures forall x :: x in was ==> Standing(x)
    {
      CacheIsOwned(vol.src.blocks, shape, dir, was);
      SameLength();
      hide Told, Orderly, Sound, Logged, Held, Strung, HangsOff, Kept, Spares, Grown;
      forall x | x in was
        ensures Standing(x)
      {
        var i :| 0 <= i < |was| && was[i] == x;
        assert IsCache(vol.src.blocks, dir, was[i]) && was[i] in shape.up;
        CacheBearsNoFile(base, vol.src.blocks, origin, busy, x);
      }
    }

    // ---- Dates and accounts -------------------------------------------------------------

    /** Stamp a directory's date and the root's, if this session has a clock. */
    method Touch(dir: Lba)
      requires Valid() && IsFolder(vol.src.blocks, shape, dir)
      modifies vol.src
      ensures Valid() && Entries() == old(Entries()) && IsFolder(vol.src.blocks, shape, dir)
      ensures Carries(old(vol.src.blocks), shape, vol.src.blocks, shape)
      ensures old(Mirrors(vol.src.blocks, vol.f, shape, dir)) ==> Mirrors(vol.src.blocks, vol.f, shape, dir)
      ensures OnlyDated(old(vol.src.blocks), shape, dir, vol.src.blocks)
      ensures clock.None? ==> vol.src.blocks == old(vol.src.blocks)
      ensures dir < |vol.src.blocks| == |old(vol.src.blocks)|
      ensures clock.Some? && old(vol.src.blocks)[dir].Header? ==>
                vol.src.blocks[dir] == Dated(old(vol.src.blocks)[dir], clock.value)
      ensures forall x: Lba :: x < |vol.src.blocks| && x != dir && x != vol.root ==>
                vol.src.blocks[x] == old(vol.src.blocks)[x]
    {
      hide Ready, Orderly, Kept, Rooted, Neutral, Mirrors;
      FolderFacts(dir);
      RootFacts();
      ghost var d := vol.src.blocks;
      NeutralItself(d[dir]);
      NeutralItself(d[vol.root]);
      if clock.None? {
        return;
      }
      DatesAreNeutralAt(d, dir, clock.value);
      if dir != vol.root {
        PutNeutral(dir, Dated(vol.src.blocks[dir], clock.value));
      }
      StampRoot(clock.value, dir == vol.root);
      StillFolder(d, dir);
      StampsAreNeutral(d[vol.root], clock.value, dir == vol.root);
      NoEntryOfItself(d, dir);
      if Mirrors(d, vol.f, shape, dir) { NeutralKeepsMirror(d, vol.f, shape, dir, dir, vol.src.blocks); }
    }

    lemma NoEntryOfItself(d: Disk, dir: Lba)
      requires Valid() && Grown(d, shape) && Tree(d, shape) == Entries()
      ensures !EntryOf(d, shape, dir, dir)
    {
      hide Ready, Kept;
      NotItsOwnEntry(vol.src.blocks, shape, dir);
      InTree(d, shape, dir, dir);
      InTree(vol.src.blocks, shape, dir, dir);
    }

    /** Either way of dating a directory leaves its pointers and its name. */
    lemma DatesAreNeutralAt(d: Disk, dir: Lba, now: Date)
      requires dir < |d| && IsDirectory(d[dir])
      ensures d[dir].Header? ==> Neutral(d[dir], Dated(d[dir], now))
      ensures d[dir].Root? ==> Neutral(d[dir], Stamped(d[dir], now, true))
    {}

    lemma FolderFacts(dir: Lba)
      requires Steady() && IsFolder(vol.src.blocks, shape, dir)
      ensures Grown(vol.src.blocks, shape) && shape.root == vol.root
      ensures shape.Owns(dir) && dir in live && dir < |vol.src.blocks|
      ensures if dir == vol.root then vol.src.blocks[dir].Root? else vol.src.blocks[dir].Header?
      ensures |HashTable(vol.src.blocks[dir])| == vol.f.slots
    {
      hide Ready, Kept;
      FolderInTree(vol.src.blocks, shape, dir);
    }

    lemma RootFacts()
      requires Steady()
      ensures Grown(vol.src.blocks, shape) && shape.root == vol.root && shape.Owns(vol.root)
      ensures vol.root < |vol.src.blocks| && vol.src.blocks[vol.root].Root? && alloc.Valid()
    {}

    lemma StillFolder(d: Disk, dir: Lba)
      requires Steady() && Grown(d, shape) && IsFolder(d, shape, dir) && Tree(d, shape) == Entries()
      ensures IsFolder(vol.src.blocks, shape, dir)
    {
      FolderStays(d, shape, vol.src.blocks, shape, dir);
    }

    /** Refresh the count of used blocks that the root keeps on a long-name volume. */
    method StampBlocksUsed()
      requires Valid()
      modifies vol.src
      ensures Valid() && Entries() == old(Entries()) && |vol.src.blocks| == |old(vol.src.blocks)|
      ensures Carries(old(vol.src.blocks), shape, vol.src.blocks, shape)
      ensures forall x: Lba :: x != vol.root && x < |vol.src.blocks| ==> vol.src.blocks[x] == old(vol.src.blocks)[x]
      ensures vol.root < |vol.src.blocks| && Neutral(old(vol.src.blocks)[vol.root], vol.src.blocks[vol.root])
      ensures !vol.f.longNames ==> vol.src.blocks == old(vol.src.blocks)
    {
      hide Ready, Orderly, Kept, Rooted, Neutral;
      RootFacts();
      NeutralItself(vol.src.blocks[vol.root]);
      if !vol.f.longNames {
        return;
      }
      AccountsAreNeutral(vol.src.blocks[vol.root], alloc.BlocksUsed());
      PutNeutral(vol.root, Accounted(vol.src.blocks[vol.root], alloc.BlocksUsed()));
    }

    method StampRoot(now: Date, dirToo: bool)
      requires Valid()
      modifies vol.src
      ensures Valid() && Entries() == old(Entries()) && Carries(old(vol.src.blocks), shape, vol.src.blocks, shape)
      ensures vol.root < |old(vol.src.blocks)| && old(vol.src.blocks)[vol.root].Root?
      ensures vol.src.blocks == old(vol.src.blocks)[vol.root := Stamped(old(vol.src.blocks)[vol.root], now, dirToo)]
    {
      hide Ready, Orderly, Kept, Rooted, Neutral;
      RootFacts();
      StampsAreNeutral(vol.src.blocks[vol.root], now, dirToo);
      PutNeutral(vol.root, Stamped(vol.src.blocks[vol.root], now, dirToo));
    }

    // ---- What an operation starts from ---------------------------------------------------

    /** `dir` names a directory of the tree, or no directory block at all: what a caller
        has who got it from the root, from a lookup or out of thin air. */
    ghost predicate Handle(dir: Lba)
      reads this`shape, vol.src
    {
      var d := vol.src.blocks;
      IsFolder(d, shape, dir) || !(dir < |d| && IsDirectory(d[dir]))
    }

    /** An operation begins: what follows is measured against the volume as it is now, and
        `mine` is what it may change of the files. */
    ghost method Begin(mine: set<Lba>)
      requires Valid()
      modifies this`live, this`base, this`origin, this`past, this`busy, this`views
      ensures Valid() && BeganWith(vol.src.blocks, shape, vol.src.trail, mine) && live == shape.Members()
      ensures views == {Entries()}
      ensures forall x :: old(Mine(x)) ==> Mine(x)
      ensures forall x :: old(Spent(x)) ==> Spent(x)
    {
      hide Ready, Orderly, Rooted, Kept, Tree, Resting, Mine;
      RestingNow(mine);
      SameLength();
      MinesNow();
      ghost var mines := set x: Lba | x < |vol.src.blocks| && Mine(x);
      live := shape.Members();
      base := vol.src.blocks;
      origin := shape;
      past := vol.src.trail;
      busy := mine + SetOf(g.pages);
      views := {Entries()};
      ReadyAtRest(mine);
      StillMine(mines);
    }

    lemma MinesNow()
      requires Steady()
      ensures forall x: Lba :: Mine(x) ==> x < |vol.src.blocks| && InReserve(x)
    {
      SameLength();
      hide Ready, Orderly;
    }

    /** Allocated, in memory and on the disk, and no part of the volume. */
    ghost predicate InReserve(x: Lba)
      reads this`shape, vol.src, alloc`words
    {
      0 < x < |vol.src.blocks| && x !in shape.Members() && !shape.Owns(x) && alloc.IsCovered(x) && x !in alloc.Free()
          && !FreeOnDisk(vol.src.blocks, g, x)
    }

    lemma StillMine(mines: set<Lba>)
      requires base == vol.src.blocks && origin == shape && live == shape.Members() && forall x: Lba :: x in mines ==>
                InReserve(x)
      ensures forall x: Lba :: x in mines ==> Mine(x)
    {
      hide FreeOnDisk;
    }

    /** All there is to a volume between two operations. */
    ghost predicate Resting(mine: set<Lba>)
      reads this`shape, this`rank, vol.src, alloc
    {
      var d, own := vol.src.blocks, mine + SetOf(g.pages);
      && alloc.Valid() && alloc.Synced(d) && alloc.Layout() == g && vol.f.payload > 0 && vol.f.slots > 0
          && vol.src.Remembers()
      && Sound(d, g, alloc.Free(), shape.Members(), vol.root)
      && Logged(vol.src.trail, g, vol.root, vol.src.trail, d, shape, own) && Spares(d, d, shape, own)
      && Held(d, shape, own, alloc.Free()) && ShowsBy(d, vol.f, vol.root, Entries(), shape, rank)
    }

    lemma RestingNow(mine: set<Lba>)
      requires Steady()
      ensures Resting(mine)
    {
      hide Sound, Orderly, Rooted, Kept, Held, FreeOnDisk, Logged, Spares, Tree, Told;
      SeenAtRest();
      ShedTheRest();
      HeldAtRest(mine + SetOf(g.pages));
      SparedAtRest(vol.src.blocks, shape, mine + SetOf(g.pages));
      StartsLogging(mine + SetOf(g.pages));
    }

    lemma ReadyAtRest(mine: set<Lba>)
      requires Resting(mine) && live == shape.Members() && views == {Entries()}
                && BeganWith(vol.src.blocks, shape, vol.src.trail, mine)
      ensures Ready()
    {
      hide Sound, Held, FreeOnDisk, Logged, Spares, Tree, Told;
      ToldAtRest();
    }

    lemma SeenAtRest()
      requires Ready()
      ensures ShowsBy(vol.src.blocks, vol.f, vol.root, Entries(), shape, rank)
    {
      hide Sound, Logged, Spares, Held, FreeOnDisk, ShowsBy, Shown, Tree;
    }

    lemma ToldAtRest()
      requires ShowsBy(vol.src.blocks, vol.f, vol.root, Entries(), shape, rank) && past == vol.src.trail
                && views == {Entries()}
      ensures Told()
    {
      hide ShowsBy, Tree;
    }

    lemma SparedAtRest(d: Disk, s: Shape, mine: set<Lba>)
      ensures Spares(d, d, s, mine)
    {}

    lemma StartsLogging(mine: set<Lba>)
      requires Ready()
      ensures Logged(vol.src.trail, g, vol.root, vol.src.trail, vol.src.blocks, shape, mine)
    {
      hide Sound, Spares, Held, FreeOnDisk, Told;
    }

    lemma HeldAtRest(mine: set<Lba>)
      requires Steady()
      ensures Held(vol.src.blocks, shape, mine, alloc.Free())
    {}

    ghost predicate BeganWith(d: Disk, s: Shape, writes: seq<Disk>, mine: set<Lba>)
      reads this`base, this`origin, this`past, this`busy
    {
      base == d && origin == s && past == writes && busy == mine + SetOf(g.pages)
    }

    /** What the directories have shown since is all accounted for. */
    lemma ShownSince(d: Disk, s: Shape, writes: seq<Disk>, mine: set<Lba>)
      requires Steady() && BeganWith(d, s, writes, mine)
      ensures Shown(vol.src.trail, |writes|, vol.f, vol.root, views) && writes <= vol.src.trail
    {
      hide Sound, Spares, Held, Shown, Safe, ShowsBy, Orderly, Kept;
    }

    method ExpectDirectory(dir: Lba) returns (r: Result<(), MutateError>)
      requires Valid() && Handle(dir)
      ensures r.Ok? <==> IsFolder(vol.src.blocks, shape, dir)
    {
      hide Ready, Orderly, Kept, Rooted;
      RootFacts();
      if dir == vol.root {
        return Ok(());
      }
      var entry := vol.EntryAt(dir);
      match entry {
        case Err(e) => r := Err(Read(e));
        case Ok(b) => r := if b.kind.Directory? then Ok(()) else Err(NotADirectory(dir));
      }
      FolderInTree(vol.src.blocks, shape, dir);
    }

    /** The entry `name` of directory `dir`. */
    method ExpectEntry(dir: Lba, name: Bytes) returns (r: Result<Lba, MutateError>)
      requires Valid() && Handle(dir)
      ensures r.Ok? ==>
                IsFolder(vol.src.blocks, shape, dir) && Matches(vol.src.blocks, vol.f, shape, dir, name, r.value)
      ensures r.Err? <==>
                |name| > MaxName(vol.f) || !IsFolder(vol.src.blocks, shape, dir)
                || forall y :: !Matches(vol.src.blocks, vol.f, shape, dir, name, y)
    {
      hide Ready, Orderly, Kept, Rooted, Matches, IsFolder;
      var found := ExpectDirectory(dir);
      match found {
        case Err(e) => r := Err(e);
        case Ok(_) =>
          InOrderNow();
          var y := vol.Lookup(dir, name, shape, rank);
          match y {
            case Err(e) => r := Err(Read(e));
            case Ok(None) => r := Err(NotFound(dir, name));
            case Ok(Some(lba)) => r := Ok(lba);
          }
      }
    }

    // ---- Names come and go -----------------------------------------------------------------

    /** A new header and the blocks that hang off it are complete on the disk: from here on
        they are an orphan of the shape, which the next write may point to. */
    ghost method Adopt(h: Lba, mine: map<Lba, Edge>)
      requires Valid() && Mine(h) && h !in mine && forall y: Lba :: y in mine ==> Mine(y)
      requires h < |vol.src.blocks| && vol.src.blocks[h].Header?
                && (vol.src.blocks[h].chain == 0 || vol.src.blocks[h].chain in live)
      requires IsDirectory(vol.src.blocks[h]) ==> |HashTable(vol.src.blocks[h])| == vol.f.slots
      requires Hung(vol.src.blocks, h, mine)
      modifies this`live, this`shape
      ensures Valid() && Entries() == old(Entries())
      ensures shape == Shape(old(shape).root, old(shape).up + mine, old(shape).orphans + {h})
                && live == old(live) + {h} + mine.Keys
    {
      hide Orderly, Rooted, Kept, Sound, Spares, Logged, Held, FreeOnDisk, Hung, Unused, Tree, IsDirectory, HashTable,
        Told;
      ghost var d := vol.src.blocks;
      MineIsUnused(h, mine);
      HungKeepsOrder(d, vol.f, g, shape, rank, vol.root, h, mine);
      JoinOrphan(h, mine);
      ViewNow();
      live := live + {h} + mine.Keys;
      TakeShape(Shape(shape.root, shape.up + mine, shape.orphans + {h}));
    }

    /** Every pointer of `h` but its chain, and of the blocks of `mine`, is an edge of `mine`. */
    static ghost predicate Hung(d: Disk, h: Lba, mine: map<Lba, Edge>) {
      && (forall y: Lba :: y in mine ==>
          0 < y < |d| && Fits(d[y], mine[y].link) && !mine[y].link.Slot? && !mine[y].link.Chain?)
      && (h < |d| ==> forall l :: At(d[h], l) != 0 && !l.Chain? ==>
          At(d[h], l) in mine && mine[At(d[h], l)] == Edge(h, l))
      && (forall y: Lba, l :: y in mine && y < |d| && At(d[y], l) != 0 ==>
          At(d[y], l) in mine && mine[At(d[y], l)] == Edge(y, l))
    }

    static lemma HungKeepsOrder(d: Disk, f: Format, g: Geometry, s: Shape, rank: map<Lba, int>, root: Lba, h: Lba,
            mine: map<Lba, Edge>)
      requires Orderly(d, f, g, s, rank, root) && 0 < h < |d| && d[h].Header? && Hung(d, h, mine)
      requires !s.Owns(h) && h !in mine && forall y: Lba :: y in mine ==> !s.Owns(y)
      requires IsDirectory(d[h]) ==> |HashTable(d[h])| == f.slots
      ensures Orderly(d, f, g, Shape(s.root, s.up + mine, s.orphans + {h}), rank, root)
      ensures Tree(d, Shape(s.root, s.up + mine, s.orphans + {h})) == Tree(d, s)
      ensures Rooted(d, s) ==> Rooted(d, Shape(s.root, s.up + mine, s.orphans + {h}))
    {
      hide Orderly, Tree, Rooted;
      AdoptKeepsOrder(d, f, g, s, rank, root, h, mine);
    }

    lemma MineIsUnused(h: Lba, mine: map<Lba, Edge>)
      requires Steady() && Mine(h) && forall y: Lba :: y in mine ==> Mine(y)
      ensures 0 < h < |vol.src.blocks| && !shape.Owns(h) && forall y: Lba :: y in mine ==>
                !shape.Owns(y) && 0 < y < |vol.src.blocks|
    {
      SameLength();
    }

    lemma JoinOrphan(h: Lba, mine: map<Lba, Edge>)
      requires Steady() && Mine(h) && (forall y: Lba :: y in mine ==> Mine(y)) && Hung(vol.src.blocks, h, mine)
      requires h < |vol.src.blocks| && vol.src.blocks[h].Header?
                && (vol.src.blocks[h].chain == 0 || vol.src.blocks[h].chain in live)
      ensures Sound(vol.src.blocks, g, alloc.Free(), live + {h} + mine.Keys, vol.root)
      ensures Kept(Shape(shape.root, shape.up + mine, shape.orphans + {h}), alloc.reserved,
                alloc.reserved + alloc.Covered(), alloc.Free())
      ensures Shape(shape.root, shape.up + mine, shape.orphans + {h}).Members() <= live + {h} + mine.Keys
    {
      hide Ready, Orderly, FreeOnDisk, Hung, Sound, Unused;
      JoinOrphanSound(h, mine);
      var t := Shape(shape.root, shape.up + mine, shape.orphans + {h});
      forall x: Lba | t.Owns(x)
        ensures alloc.IsCovered(x) && x !in alloc.Free()
      {
        assert shape.Owns(x) || x == h || x in mine;
      }
    }

    lemma JoinOrphanSound(h: Lba, mine: map<Lba, Edge>)
      requires Ready() && Mine(h) && (forall y: Lba :: y in mine ==> Mine(y)) && Hung(vol.src.blocks, h, mine)
      requires h < |vol.src.blocks| && vol.src.blocks[h].Header?
                && (vol.src.blocks[h].chain == 0 || vol.src.blocks[h].chain in live)
      ensures Sound(vol.src.blocks, g, alloc.Free(), live + {h} + mine.Keys, vol.root)
    {
      SameLength();
      hide Told, Spares, Logged, Held, FreeOnDisk;
      var more := {h} + mine.Keys;
      assert live + more == live + {h} + mine.Keys;
      HungInside(vol.src.blocks, h, mine, live);
      hide Hung, At, Fits, Sound;
      JoinIsSound(vol.src.blocks, g, alloc.Free(), live, vol.root, more);
    }

    static lemma HungInside(d: Disk, h: Lba, mine: map<Lba, Edge>, live: set<Lba>)
      requires Hung(d, h, mine) && h < |d| && d[h].Header? && (d[h].chain == 0 || d[h].chain in live)
      ensures forall y: Lba :: y in {h} + mine.Keys ==> y < |d| && PointsInto(d[y], live + ({h} + mine.Keys))
    {
      assert At(d[h], Chain) == d[h].chain;
    }

    lemma HeadIsLive(dir: Lba, slot: nat)
      requires Steady() && IsFolder(vol.src.blocks, shape, dir) && slot < |HashTable(vol.src.blocks[dir])|
      ensures HashTable(vol.src.blocks[dir])[slot] == 0 || HashTable(vol.src.blocks[dir])[slot] in live
    {
      hide Ready, Kept;
      assert Recorded(vol.src.blocks, shape, dir);
      assert At(vol.src.blocks[dir], Slot(slot)) == HashTable(vol.src.blocks[dir])[slot];
    }

    /** The write that enters an orphan's name into a directory. */
    method EnterName(dir: Lba, slot: nat, h: Lba)
      requires Steady() && IsFolder(vol.src.blocks, shape, dir) && h in shape.orphans && h in live
      requires h < |vol.src.blocks| && vol.src.blocks[h].Header? && vol.src.blocks[h].parent == dir
      requires slot == SlotIn(vol.f, vol.src.blocks[h].name) && slot < |HashTable(vol.src.blocks[dir])|
      requires vol.src.blocks[h].chain == HashTable(vol.src.blocks[dir])[slot]
      requires forall y :: !Matches(vol.src.blocks, vol.f, shape, dir, vol.src.blocks[h].name, y)
      modifies this`shape, this`rank, this`views, vol.src
      ensures Steady() && (old(Valid()) ==> Valid()) && views == old(views) + {Entries()}
      ensures Entries() == old(Entries())[h := FactOf(old(vol.src.blocks), old(vol.src.blocks)[h])]
      ensures vol.src.blocks == old(vol.src.blocks)[dir := WithSlot(old(vol.src.blocks)[dir], slot, h)]
      ensures shape == Linked(old(shape), dir, slot, h, old(vol.src.blocks)[h].chain)
      ensures forall x :: old(Spent(x)) ==> Spent(x)
      ensures Carries(old(vol.src.blocks), old(shape), vol.src.blocks, shape)
      ensures vol.src.trail == old(vol.src.trail) + [vol.src.blocks]
    {
      hide Ready, Orderly, Rooted, Kept, FreeOnDisk, WithSlot, Linked, RankedFirst, Tree, Carries;
      ghost var d, s := vol.src.blocks, shape;
      var b := WithSlot(vol.src.blocks[dir], slot, h);
      FolderFacts(dir);
      LinkKeepsOrder(d, vol.f, g, s, rank, vol.root, dir, slot, h);
      if Rooted(d, s) { LinkIsRootedToo(d, dir, slot, h); }
      LinkIsKept(dir, slot, h);
      LinkCarries(d, s, dir, slot, h);
      PointerMoves(dir, Slot(slot), h, b);
      PutTurn(dir, b, Linked(s, dir, slot, h, d[h].chain), RankedFirst(rank, h, d[h].chain));
    }

    lemma LinkIsRootedToo(d: Disk, dir: Lba, slot: nat, h: Lba)
      requires Orderly(d, vol.f, g, shape, rank, vol.root) && Rooted(d, shape) && IsFolder(d, shape, dir)
                && h in shape.orphans
      requires h < |d| && d[h].Header? && d[h].parent == dir && slot < |HashTable(d[dir])|
                && d[h].chain == HashTable(d[dir])[slot]
      ensures Rooted(d[dir := WithSlot(d[dir], slot, h)], Linked(shape, dir, slot, h, d[h].chain))
    {
      LinkIsRooted(d, vol.f, shape, rank, dir, slot, h);
    }

    lemma LinkIsKept(dir: Lba, slot: nat, h: Lba)
      requires Steady() && IsFolder(vol.src.blocks, shape, dir) && h in shape.orphans && h in live
      requires h < |vol.src.blocks| && vol.src.blocks[h].Header? && slot < |HashTable(vol.src.blocks[dir])|
      requires vol.src.blocks[h].chain == HashTable(vol.src.blocks[dir])[slot]
      ensures var t := Linked(shape, dir, slot, h, vol.src.blocks[h].chain);
              && Kept(t, alloc.reserved, alloc.reserved + alloc.Covered(), alloc.Free()) && t.Members() <= live
                  && t.root == shape.root
              && forall x :: t.Owns(x) ==> shape.Owns(x)
    {
      hide Ready, Rooted;
      var d := vol.src.blocks;
      assert At(d[dir], Slot(slot)) == d[h].chain && Recorded(d, shape, dir);
      assert d[h].chain != 0 ==> d[h].chain in shape.up;
      SameOwned(shape, Linked(shape, dir, slot, h, d[h].chain), alloc.reserved, alloc.reserved + alloc.Covered(),
          alloc.Free());
    }

    /** A live block may be rewritten with one pointer moved to a live block. */
    lemma PointerMoves(x: Lba, l: Link, y: Lba, b: Block)
      requires Ready() && x in live && x < |vol.src.blocks| && (y == 0 || y in live)
      requires (l.Slot? && IsDirectory(vol.src.blocks[x]) && l.i < |HashTable(vol.src.blocks[x])|)
                || (l.Chain? && vol.src.blocks[x].Header?)
      requires b == WithLink(vol.src.blocks[x], l, y)
      ensures !vol.src.blocks[x].Bitmap? && PointsInto(b, live)
      ensures x < |base| && (origin.Owns(x) && x !in busy ==> KeepsFile(base[x], b))
    {
      var d := vol.src.blocks;
      OtherLinksStay(d[x], l, y);
      LinkWriteIsSmall(d[x], l, y);
      KeepsFileOn(x, b);
      hide Told, At, Logged, Spares, Held, WithLink, FreeOnDisk;
      assert PointsInto(d[x], live);
      forall k | At(b, k) != 0
        ensures At(b, k) in live
      {
        if k != l { assert At(b, k) == At(d[x], k); }
      }
    }

    /** The write that takes a name out of the chain it is in. */
    method RemoveName(x: Lba, l: Link, h: Lba)
      requires Steady() && h in shape.up && shape.up[h] == Edge(x, l) && (l.Slot? || l.Chain?)
      requires x in shape.Members() && x < |vol.src.blocks| && h < |vol.src.blocks| && vol.src.blocks[h].Header?
      requires At(vol.src.blocks[x], l) == h != x
      requires l.Slot? ==> IsDirectory(vol.src.blocks[x]) && l.i < |HashTable(vol.src.blocks[x])|
      requires l.Chain? ==> vol.src.blocks[x].Header?
      modifies this`shape, this`rank, this`views, vol.src
      ensures Steady() && rank == old(rank) && views == old(views) + {Entries()}
      ensures old(Valid()) && Childless(old(Entries()), h) ==> Valid()
      ensures Entries() == old(Entries()) - {h}
      ensures vol.src.blocks == old(vol.src.blocks)[x :=
                WithLink(old(vol.src.blocks)[x], l, old(vol.src.blocks)[h].chain)]
      ensures vol.src.trail == old(vol.src.trail) + [vol.src.blocks]
      ensures shape == Spliced(old(shape), h, old(vol.src.blocks)[h].chain)
      ensures forall x :: old(Mine(x)) ==> Mine(x)
      ensures Carries(old(vol.src.blocks), old(shape), vol.src.blocks, shape)
    {
      hide Ready, Orderly, Rooted, Kept, FreeOnDisk, WithLink, Spliced, At, Carries;
      ghost var d, s := vol.src.blocks, shape;
      var b := WithLink(vol.src.blocks[x], l, vol.src.blocks[h].chain);
      SpliceKeepsOrderToo(d, x, l, h);
      SpliceIsKept(x, l, h);
      SpliceCarries(d, s, x, l, h);
      PointerMoves(x, l, d[h].chain, b);
      PutTurn(x, b, Spliced(s, h, d[h].chain), rank);
    }

    lemma SpliceKeepsOrderToo(d: Disk, x: Lba, l: Link, h: Lba)
      requires Orderly(d, vol.f, g, shape, rank, vol.root)
      requires h in shape.up && shape.up[h] == Edge(x, l) && (l.Slot? || l.Chain?)
      requires x in shape.Members() && x < |d| && h < |d| && d[h].Header? && At(d[x], l) == h != x
      requires l.Slot? ==> IsDirectory(d[x]) && l.i < |HashTable(d[x])|
      requires l.Chain? ==> d[x].Header?
      ensures Orderly(d[x := WithLink(d[x], l, d[h].chain)], vol.f, g, Spliced(shape, h, d[h].chain), rank, vol.root)
      ensures Tree(d[x := WithLink(d[x], l, d[h].chain)], Spliced(shape, h, d[h].chain)) == Tree(d, shape) - {h}
      ensures Rooted(d, shape) && Childless(Tree(d, shape), h) ==>
                Rooted(d[x := WithLink(d[x], l, d[h].chain)], Spliced(shape, h, d[h].chain))
    {
      SpliceKeepsOrder(d, vol.f, g, shape, rank, vol.root, x, l, h);
      if Rooted(d, shape) && Childless(Tree(d, shape), h) {
        hide At, Rooted, WithLink, Spliced;
        forall y: Lba | IsEntry(shape, y) && y < |d| && d[y].Header?
          ensures d[y].parent != h
        {
          assert y in Tree(d, shape);
        }
        SpliceIsRooted(d, vol.f, shape, rank, x, l, h);
      }
    }

    lemma SpliceIsKept(x: Lba, l: Link, h: Lba)
      requires Steady() && h in shape.up && shape.up[h] == Edge(x, l) && (l.Slot? || l.Chain?)
      requires x in shape.Members() && x < |vol.src.blocks| && h < |vol.src.blocks| && vol.src.blocks[h].Header?
      requires At(vol.src.blocks[x], l) == h != x
      requires l.Slot? ==> IsDirectory(vol.src.blocks[x]) && l.i < |HashTable(vol.src.blocks[x])|
      requires l.Chain? ==> vol.src.blocks[x].Header?
      ensures var t := Spliced(shape, h, vol.src.blocks[h].chain);
              && Kept(t, alloc.reserved, alloc.reserved + alloc.Covered(), alloc.Free()) && t.Members() <= live
                  && t.root == shape.root
              && forall x :: t.Owns(x) ==> shape.Owns(x)
      ensures vol.src.blocks[h].chain == 0 || vol.src.blocks[h].chain in live
      ensures x in live
    {
      hide Ready, Rooted;
      SpliceFacts(vol.src.blocks, shape, x, l, h);
      SameOwned(shape, Spliced(shape, h, vol.src.blocks[h].chain), alloc.reserved, alloc.reserved + alloc.Covered(),
          alloc.Free());
    }

    // ---- Links -----------------------------------------------------------------------------

    /** Set a header's link to the next of the hard links that name one object. */
    method SetNextLink(x: Lba, next: Lba)
      requires Valid() && x < |vol.src.blocks| && vol.src.blocks[x].Header?
      requires shape.Owns(x) || (x !in live && !origin.Owns(x))
      modifies vol.src
      ensures Valid() && Entries() == old(Entries()) && Carries(old(vol.src.blocks), shape, vol.src.blocks, shape)
      ensures |vol.src.blocks| == |old(vol.src.blocks)|
      ensures vol.src.blocks == old(vol.src.blocks)[x := LinkedOn(old(vol.src.blocks)[x], next)]
    {
      hide Ready, Orderly, Kept, Rooted, Carries, Neutral;
      LinksAreNeutral(vol.src.blocks[x], next);
      PutNeutral(x, LinkedOn(vol.src.blocks[x], next));
    }

    // ---- An orphan's blocks leave the shape --------------------------------------------------

    /** An orphan and its belongings are nobody's from here on. */
    ghost method Disown(h: Lba, out: seq<Lba>)
      requires Valid() && h in shape.orphans && h < |vol.src.blocks| && EmptyTable(vol.src.blocks[h])
      requires NoRepeats(out) && |out| > 0 && out[0] == h && Belongings(shape, h, SetOf(out[1..])) && SetOf(out) <= busy
      modifies this`shape
      ensures Valid() && Entries() == old(Entries())
      ensures shape == Shape(old(shape).root, old(shape).up - SetOf(out[1..]), old(shape).orphans - {h})
      ensures forall x :: x in out ==> Spent(x)
    {
      hide Ready, Orderly, Rooted, Kept, FreeOnDisk, Tree, EmptyTable, Belongings;
      ghost var s, gone := shape, SetOf(out[1..]);
      ReleaseKeepsOrder(vol.src.blocks, vol.f, g, s, rank, vol.root, h, gone);
      DisownedFacts(h, out);
      ViewNow();
      TakeShape(Shape(s.root, s.up - gone, s.orphans - {h}));
    }

    lemma DisownedFacts(h: Lba, out: seq<Lba>)
      requires Steady() && h in shape.orphans && NoRepeats(out) && |out| > 0 && out[0] == h && SetOf(out) <= busy
      requires Belongings(shape, h, SetOf(out[1..]))
      ensures var t := Shape(shape.root, shape.up - SetOf(out[1..]), shape.orphans - {h});
              && Kept(t, alloc.reserved, alloc.reserved + alloc.Covered(), alloc.Free()) && t.Members() <= live
                  && t.root == shape.root
              && forall x :: x in out ==>
                  alloc.IsCovered(x) && x !in alloc.Free() && !t.Owns(x) && x < |base| && x in busy
    {
      SameLength();
      PagesAreOwned(vol.src.blocks, vol.f, g, shape, rank, vol.root);
      hide Ready, Named, FreeOnDisk;
      var t := Shape(shape.root, shape.up - SetOf(out[1..]), shape.orphans - {h});
      SameOwned(shape, t, alloc.reserved, alloc.reserved + alloc.Covered(), alloc.Free());
      forall x: Lba | x in out
        ensures alloc.IsCovered(x) && x !in alloc.Free() && !t.Owns(x) && x < |base| && x in busy
      {
        assert x in SetOf(out) && (x == h || x in out[1..]);
        assert x == h || x in shape.up;
        assert shape.Owns(x);
      }
    }

    // ---- Headers are reworded ------------------------------------------------------------------

    /** The comment block a header is about to have is the one it has, none, or a new one. */
    ghost predicate NoteReady(h: Lba, note: Lba)
      reads this`live, this`shape, this`base, this`origin, this`busy, alloc`words, vol.src
    {
      var d := vol.src.blocks;
      && h < |d| && d[h].Header?
      && (note == d[h].note || note == 0 || (Mine(note) && note < |d| && d[note].Comment? && note != h))
    }

    /** Give an entry another comment or other metadata. */
    method Reword(h: Lba, c: Block)
      requires h < |vol.src.blocks| && vol.src.blocks[h].Header? && c.Header? && Reworded(vol.src.blocks[h], c)
      requires Valid() && IsEntry(shape, h) && NoteReady(h, c.note)
      modifies this`live, this`shape, this`rank, this`views, vol.src
      ensures Valid() && vol.src.blocks == old(vol.src.blocks)[h := c] && rank == old(rank)
                && views == old(views) + {Entries()}
      ensures Entries() == old(Entries())[h := FactOf(vol.src.blocks, c)]
      ensures shape == Renoted(old(shape), h, old(vol.src.blocks)[h].note, c.note)
      ensures vol.src.trail == old(vol.src.trail) + [vol.src.blocks]
      ensures Carries(old(vol.src.blocks), old(shape), vol.src.blocks, shape)
      ensures DroppedIsSpent(old(vol.src.blocks)[h].note, c.note)
    {
      hide Ready, Orderly, Rooted, Kept, FreeOnDisk, Mine, Renoted, Reworded, FactOf, Tree, Carries, Grown,
        SmallRewrite, Idle;
      ghost var d, s := vol.src.blocks, shape;
      EntryIsLive(h);
      RootFacts();
      NoteIsThere(h, c.note);
      RenotedKeepsOrder(d, vol.f, g, s, rank, vol.root, h, c);
      RenotedIsKept(h, c.note);
      RewordedIsSmallToo(d[h], c);
      HeaderCarries(d, s, h, c);
      JoinNote(h, c.note);
      HeaderPoints(h, c);
      PutTurn(h, c, Renoted(s, h, d[h].note, c.note), rank);
      IdleIsSpent(d[h].note);
    }

    /** Give an orphan another name, directory and comment. */
    method Refile(h: Lba, c: Block)
      requires h < |vol.src.blocks| && vol.src.blocks[h].Header? && c.Header? && Refiled(vol.src.blocks[h], c)
      requires Steady() && h in shape.orphans && h in live && NoteReady(h, c.note)
      requires vol.src.blocks[h].note != 0 ==> c.chain != vol.src.blocks[h].note
      requires c.chain == 0 || c.chain in live
      modifies this`live, this`shape, this`rank, this`views, vol.src
      ensures Steady() && vol.src.blocks == old(vol.src.blocks)[h := c] && Entries() == old(Entries())
                && rank == old(rank)
      ensures views == old(views) + {Entries()}
      ensures shape == Renoted(old(shape), h, old(vol.src.blocks)[h].note, c.note) && h in live
      ensures vol.src.trail == old(vol.src.trail) + [vol.src.blocks]
      ensures Carries(old(vol.src.blocks), old(shape), vol.src.blocks, shape)
      ensures DroppedIsSpent(old(vol.src.blocks)[h].note, c.note)
    {
      hide Ready, Orderly, Rooted, Kept, FreeOnDisk, Mine, Renoted, Refiled, FactOf, Tree, Carries, Grown,
        SmallRewrite, Idle;
      ghost var d, s := vol.src.blocks, shape;
      RootFacts();
      NoteIsThere(h, c.note);
      RefileKeepsOrder(d, vol.f, g, s, rank, vol.root, h, c);
      RenotedIsKept(h, c.note);
      RefiledIsSmall(d[h], c);
      HeaderCarries(d, s, h, c);
      JoinNote(h, c.note);
      HeaderPoints(h, c);
      PutTurn(h, c, Renoted(s, h, d[h].note, c.note), rank);
      IdleIsSpent(d[h].note);
    }

    lemma IdleIsSpent(x: Lba)
      ensures Idle(x) && !shape.Owns(x) ==> Spent(x)
    {}

    /** A comment block that is no longer pointed to may be given back. */
    ghost predicate DroppedIsSpent(was: Lba, now: Lba)
      reads this`shape, this`base, this`origin, this`busy, alloc`words
    {
      was != 0 && now != was ==> Spent(was)
    }

    lemma EntryIsLive(h: Lba)
      requires Steady() && IsEntry(shape, h)
      ensures h in live && shape.Owns(h) && h !in shape.orphans
    {
      hide Ready, Named;
    }

    lemma NoteIsThere(h: Lba, note: Lba)
      requires Steady() && shape.Owns(h) && NoteReady(h, note)
      ensures h < |vol.src.blocks| && vol.src.blocks[h].Header?
      ensures note == vol.src.blocks[h].note || note == 0
                || (!shape.Owns(note) && note < |vol.src.blocks| && vol.src.blocks[note].Comment?)
    {
      hide Ready, Orderly;
    }

    /** A header rewrite moves its chain and its comment pointer at most. */
    static ghost predicate SmallRewrite(b: Block, c: Block) {
      && b.Header? && c.Header? && KeepsFile(b, c)
      && forall l: Link :: !l.Chain? && !l.Note? ==> At(c, l) == At(b, l)
    }

    static lemma RewordedIsSmallToo(b: Block, c: Block)
      requires Reworded(b, c)
      ensures SmallRewrite(b, c) && c.chain == b.chain
    {}

    static lemma RefiledIsSmall(b: Block, c: Block)
      requires Refiled(b, c)
      ensures SmallRewrite(b, c)
    {}

    lemma RenotedIsKept(h: Lba, note: Lba)
      requires Steady() && shape.Owns(h) && NoteReady(h, note)
      ensures var t := Renoted(shape, h, vol.src.blocks[h].note, note);
              && Kept(t, alloc.reserved, alloc.reserved + alloc.Covered(), alloc.Free()) && t.root == shape.root
              && t.Members() <= live + NoteSet(note)
      ensures var was := vol.src.blocks[h].note;
              was != 0 && note != was ==> Idle(was) && !Renoted(shape, h, was, note).Owns(was)
    {
      SameLength();
      var d := vol.src.blocks;
      var was := d[h].note;
      if was != 0 { NoteIsOwned(d, shape, h); CacheBearsNoFile(base, d, origin, busy, was); }
      hide Ready, Named, FreeOnDisk, Unused;
      var t := Renoted(shape, h, was, note);
      forall x: Lba | t.Owns(x)
        ensures alloc.IsCovered(x) && x !in alloc.Free()
      {
        assert shape.Owns(x) || x == note;
      }
      if was != 0 { assert shape.Owns(was); }
    }

    static lemma HeaderCarries(d: Disk, s: Shape, h: Lba, c: Block)
      requires Grown(d, s) && s.Owns(h) && h < |d| && SmallRewrite(d[h], c)
      ensures Carries(d, s, d[h := c], Renoted(s, h, d[h].note, c.note))
    {
      if d[h].note != 0 { NoteIsOwned(d, s, h); }
    }

    ghost method JoinNote(h: Lba, note: Lba)
      requires Steady() && shape.Owns(h) && NoteReady(h, note)
      modifies this`live
      ensures Ready() && live == old(live) + NoteSet(note)
    {
      hide Sound, Orderly, Logged, Spares, Held, NoteReady;
      JoinNoteSound(h, note);
      live := live + NoteSet(note);
    }

    lemma JoinNoteSound(h: Lba, note: Lba)
      requires Steady() && shape.Owns(h) && NoteReady(h, note)
      ensures Sound(vol.src.blocks, g, alloc.Free(), live + NoteSet(note), vol.root)
    {
      var d := vol.src.blocks;
      if note != 0 && note == d[h].note {
        NoteIsOwned(d, shape, h);
        assert live + NoteSet(note) == live;
      } else if note != 0 {
        NoPointers(d[note]);
        hide Told, Logged, Spares, Held, FreeOnDisk, Orderly;
        JoinIsSound(d, g, alloc.Free(), live, vol.root, {note});
      } else {
        assert live + NoteSet(note) == live;
      }
    }

    static lemma NoPointers(b: Block)
      requires b.Comment?
      ensures forall l :: At(b, l) == 0
    {}

    lemma HeaderPoints(h: Lba, c: Block)
      requires Ready() && h < |vol.src.blocks| && h in live && SmallRewrite(vol.src.blocks[h], c)
      requires (c.note == 0 || c.note in live) && (c.chain == 0 || c.chain == vol.src.blocks[h].chain
                || c.chain in live)
      ensures !vol.src.blocks[h].Bitmap? && PointsInto(c, live)
      ensures h < |base| && (origin.Owns(h) && h !in busy ==> KeepsFile(base[h], c))
    {
      KeepsFileOn(h, c);
      ChainAndNote(vol.src.blocks[h]);
      ChainAndNote(c);
      hide Told, At, Logged, Spares, Held, FreeOnDisk, KeepsFile;
      assert PointsInto(vol.src.blocks[h], live);
      forall l | At(c, l) != 0
        ensures At(c, l) in live
      {
        if !l.Chain? && !l.Note? { assert At(c, l) == At(vol.src.blocks[h], l); }
      }
    }

    static lemma ChainAndNote(b: Block)
      requires b.Header?
      ensures At(b, Chain) == b.chain && At(b, Note) == b.note
    {}

    /** Rewrite the text of an entry's comment block in place. */
    method PutText(h: Lba, c: Block)
      requires h < |vol.src.blocks| && vol.src.blocks[h].Header? && vol.src.blocks[h].note != 0 && c.Comment?
      requires Valid() && IsEntry(shape, h)
      modifies this`shape, this`rank, this`views, vol.src
      ensures shape == old(shape) && rank == old(rank) && views == old(views) + {Entries()}
      ensures h < |vol.src.blocks| && vol.src.blocks[h] == old(vol.src.blocks)[h]
      ensures old(vol.src.blocks)[h].note < |old(vol.src.blocks)|
      ensures vol.src.blocks == old(vol.src.blocks)[old(vol.src.blocks)[h].note := c]
      ensures Valid()
      ensures Entries() == old(Entries())[h := FactOf(vol.src.blocks, vol.src.blocks[h])]
      ensures vol.src.trail == old(vol.src.trail) + [vol.src.blocks]
      ensures Carries(old(vol.src.blocks), shape, vol.src.blocks, shape)
    {
      hide Ready, Orderly, Kept, Rooted, FactOf, Tree, FreeOnDisk, KeepsFile;
      RetextKeepsOrder(vol.src.blocks, vol.f, g, shape, rank, vol.root, h, c);
      TextIsPutable(vol.src.blocks[h].note, c);
      TextCarries(vol.src.blocks, shape, vol.src.blocks[h].note, c);
      PutTurn(vol.src.blocks[h].note, c, shape, rank);
    }

    lemma TextIsPutable(x: Lba, c: Block)
      requires Steady() && x < |vol.src.blocks| && vol.src.blocks[x].Comment? && c.Comment?
      ensures PointsInto(c, live) && x < |base| && (origin.Owns(x) && x !in busy ==> KeepsFile(base[x], c))
    {
      NoPointers(c);
      SameLength();
      hide Told, Orderly, Kept, Sound, Logged, Held;
      CacheBearsNoFile(base, vol.src.blocks, origin, busy, x);
      BearsNothing(base[x], c);
    }

    static lemma TextCarries(d: Disk, s: Shape, x: Lba, c: Block)
      requires x < |d| && d[x].Comment?
      ensures Carries(d, s, d[x := c], s)
    {}

    static lemma BearsNothing(b: Block, c: Block)
      ensures !BearsFile(b) ==> KeepsFile(b, c)
    {}
  }
}
