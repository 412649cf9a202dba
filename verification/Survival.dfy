/**
 What a crash leaves of the files. An operation begins with the volume at rest and is
 about the blocks of at most one file; every state its writes pass through is one a crash
 may leave, and in each of them every other file reads as it did.
 */
module Survival {
  import opened Words
  import opened Disk
  import opened Allocation
  import opened Names
  import opened Forest
  import opened Directories
  import opened Protocol
  import opened Reader
  import opened Steps
  import opened Mutation
  import opened Chains

  /** A file whose tables are filled in order and whose bytes are `s`. */
  ghost predicate Stored(d: Disk, f: Format, h: Lba, s: Bytes)
    requires f.payload > 0
  {
    exists c: FileChain :: c.header == h && Canonical(d, f, c) && Holds(d, f, c, s)
  }

  lemma StoredIsRead(d: Disk, f: Format, h: Lba, s: Bytes)
    requires f.payload > 0 && Stored(d, f, h, s)
    ensures FileIs(d, f, h, s)
  {
    hide Walks, LaidOut, CeilDiv, Holds;
    var c: FileChain :| c.header == h && Canonical(d, f, c) && Holds(d, f, c, s);
    assert IsChain(d, f, c);
  }

  lemma StoredNow(e: Disk, f: Format, c: FileChain, s: Bytes)
    requires f.payload > 0 && Canonical(e, f, c) && Holds(e, f, c, s)
    ensures Stored(e, f, c.header, s)
  {}

  lemma CanonicalIsChain(d: Disk, f: Format, c: FileChain)
    requires f.payload > 0 && Canonical(d, f, c)
    ensures IsChain(d, f, c)
  {}

  /** The blocks of a file are none of the bitmap's pages. */
  lemma AwayFromPages(d: Disk, f: Format, c: FileChain, t: Bytes, g: Geometry)
    requires f.payload > 0 && IsChain(d, f, c) && Holds(d, f, c, t)
    requires forall i :: 0 <= i < |g.pages| ==> g.pages[i] < |d| && d[g.pages[i]].Bitmap?
    ensures BlocksOfChain(c) !! SetOf(g.pages)
  {
    WalkIsLists(d, f.slots, c.header, d[c.header].ext, c.extensions, c.blocks[|d[c.header].table|..], 0);
    hide Walks, CeilDiv, Chunk;
    forall x: Lba | x in BlocksOfChain(c)
      ensures x < |d| && !d[x].Bitmap?
    {
      if x in c.blocks {
        var i :| 0 <= i < |c.blocks| && c.blocks[i] == x;
        assert Delivers(d, f.ffs, c.header, i, c.blocks[i], Chunk(t, f.payload, i));
      }
    }
  }

  /** A file the writes between two states spare is the same in both, tables and all. */
  lemma CanonicalSpared(d: Disk, f: Format, s: Shape, e: Disk, busy: set<Lba>, c: FileChain)
    requires f.payload > 0 && Grown(d, s) && Canonical(d, f, c) && s.Owns(c.header)
    requires Spares(d, e, s, busy) && BlocksOfChain(c) !! busy
    ensures Canonical(e, f, c)
  {
    ChainIsOwned(d, f, s, c);
    WalkIsLists(d, f.slots, c.header, d[c.header].ext, c.extensions, c.blocks[|d[c.header].table|..], 0);
    hide Grown, Walks, CeilDiv, HangsOff, LaidOut;
    forall x: Lba | x in c.extensions && x < |d|
      ensures e[x] == d[x]
    {
      var i :| 0 <= i < |c.extensions| && c.extensions[i] == x;
      assert s.Owns(x) && x !in busy;
    }
    assert c.header !in busy;
    CanonicalFramed(d, f, c, e);
  }

  /** `d` is where the operation began, with the volume in order. */
  ghost predicate Began(m: Mutator, d: Disk, s: Shape, rank: map<Lba, int>, writes: seq<Disk>, mine: set<Lba>)
    reads m`base, m`origin, m`past, m`busy
  {
    m.BeganWith(d, s, writes, mine) && Orderly(d, m.vol.f, m.g, s, rank, m.vol.root)
  }

  /** Every file the operation is not about is spared in every state it has passed through. */
  lemma StatesSpare(m: Mutator, d: Disk, s: Shape, rank: map<Lba, int>, writes: seq<Disk>, mine: set<Lba>,
          c: FileChain, t: Bytes)
    requires m.Ready() && Began(m, d, s, rank, writes, mine)
    requires m.vol.f.payload > 0 && IsChain(d, m.vol.f, c) && Holds(d, m.vol.f, c, t) && s.Owns(c.header)
              && BlocksOfChain(c) !! mine
    ensures BlocksOfChain(c) !! m.busy && Grown(d, s) && writes <= m.vol.src.trail
    ensures forall i :: |writes| <= i < |m.vol.src.trail| ==> Spares(d, m.vol.src.trail[i], s, m.busy)
    ensures Spares(d, m.vol.src.blocks, s, m.busy)
  {
    PagesAreOwned(d, m.vol.f, m.g, s, rank, m.vol.root);
    AwayFromPages(d, m.vol.f, c, t, m.g);
    hide Mutator.Told, Sound, Mutator.Held, IsChain, Holds, BlocksOfChain, Spares, FreeOnDisk, Named, Grown;
  }

  /** Whatever an operation does, at every write of it every other file reads as it did. */
  lemma FileSurvives(m: Mutator, d: Disk, s: Shape, rank: map<Lba, int>, writes: seq<Disk>, mine: set<Lba>,
          c: FileChain, t: Bytes)
    requires m.Ready() && Began(m, d, s, rank, writes, mine)
    requires m.vol.f.payload > 0 && IsChain(d, m.vol.f, c) && Holds(d, m.vol.f, c, t) && s.Owns(c.header)
              && BlocksOfChain(c) !! mine
    ensures forall i :: |writes| <= i < |m.vol.src.trail| ==>
              IsChain(m.vol.src.trail[i], m.vol.f, c) && Holds(m.vol.src.trail[i], m.vol.f, c, t)
    ensures IsChain(m.vol.src.blocks, m.vol.f, c) && Holds(m.vol.src.blocks, m.vol.f, c, t)
  {
    StatesSpare(m, d, s, rank, writes, mine, c, t);
    hide Mutator.Ready, Mutator.BeganWith, Orderly, IsChain, Holds, BlocksOfChain, Spares, Grown;
    FileSpared(d, m.vol.f, s, m.vol.src.blocks, m.busy, c, t);
    forall i | |writes| <= i < |m.vol.src.trail|
      ensures IsChain(m.vol.src.trail[i], m.vol.f, c) && Holds(m.vol.src.trail[i], m.vol.f, c, t)
    {
      FileSpared(d, m.vol.f, s, m.vol.src.trail[i], m.busy, c, t);
    }
  }

  /** And its tables are still filled in order. */
  lemma TablesSurvive(m: Mutator, d: Disk, s: Shape, rank: map<Lba, int>, writes: seq<Disk>, mine: set<Lba>,
          c: FileChain, t: Bytes)
    requires m.Ready() && Began(m, d, s, rank, writes, mine)
    requires m.vol.f.payload > 0 && Canonical(d, m.vol.f, c) && Holds(d, m.vol.f, c, t) && s.Owns(c.header)
              && BlocksOfChain(c) !! mine
    ensures forall i :: |writes| <= i < |m.vol.src.trail| ==> Canonical(m.vol.src.trail[i], m.vol.f, c)
    ensures Canonical(m.vol.src.blocks, m.vol.f, c)
  {
    StatesSpare(m, d, s, rank, writes, mine, c, t);
    hide Mutator.Ready, Mutator.BeganWith, Orderly, Canonical, Holds, BlocksOfChain, Spares, Grown;
    CanonicalSpared(d, m.vol.f, s, m.vol.src.blocks, m.busy, c);
    forall i | |writes| <= i < |m.vol.src.trail|
      ensures Canonical(m.vol.src.trail[i], m.vol.f, c)
    {
      CanonicalSpared(d, m.vol.f, s, m.vol.src.trail[i], m.busy, c);
    }
  }

  /** No block of file `k` is one of `mine`. */
  ghost predicate Untouched(d: Disk, f: Format, k: Lba, mine: set<Lba>)
    requires f.payload > 0
  {
    forall c: FileChain :: IsChain(d, f, c) && c.header == k ==> BlocksOfChain(c) !! mine
  }

  /** Both together: whatever could be edited before can be edited after. */
  lemma StoredSurvives(m: Mutator, d: Disk, s: Shape, rank: map<Lba, int>, writes: seq<Disk>, mine: set<Lba>, k: Lba,
          t: Bytes)
    requires m.Ready() && Began(m, d, s, rank, writes, mine)
    requires m.vol.f.payload > 0 && Stored(d, m.vol.f, k, t) && s.Owns(k) && Untouched(d, m.vol.f, k, mine)
    ensures forall i :: |writes| <= i < |m.vol.src.trail| ==> Stored(m.vol.src.trail[i], m.vol.f, k, t)
    ensures Stored(m.vol.src.blocks, m.vol.f, k, t)
  {
    var c: FileChain :| c.header == k && Canonical(d, m.vol.f, c) && Holds(d, m.vol.f, c, t);
    CanonicalIsChain(d, m.vol.f, c);
    hide Mutator.Ready, IsChain, Canonical, Holds, BlocksOfChain, Began, Stored;
    FileSurvives(m, d, s, rank, writes, mine, c, t);
    TablesSurvive(m, d, s, rank, writes, mine, c, t);
    StoredNow(m.vol.src.blocks, m.vol.f, c, t);
    forall i | |writes| <= i < |m.vol.src.trail|
      ensures Stored(m.vol.src.trail[i], m.vol.f, k, t)
    {
      StoredNow(m.vol.src.trail[i], m.vol.f, c, t);
    }
  }

  /** In every state from `from` on, every file but `h` reads as it did on `d`. */
  ghost predicate OthersRead(d: Disk, f: Format, s: Shape, h: Lba, trail: seq<Disk>, from: nat)
    requires f.payload > 0
  {
    forall k, t, i :: s.Owns(k) && k != h && FileIs(d, f, k, t) && from <= i < |trail| ==> FileIs(trail[i], f, k, t)
  }

  /** The invariant the write discipline is for, over a whole session: no state any of its
      writes left calls a block free that a walk from the root arrives at. */
  lemma EveryCrashIsSafe(m: Mutator)
    requires m.Valid()
    ensures forall i :: 0 <= i < |m.vol.src.trail| ==> Safe(m.vol.src.trail[i], m.g, m.vol.root)
    ensures Safe(m.vol.src.blocks, m.g, m.vol.root)
  {
    SoundIsSafe(m.vol.src.blocks, m.g, m.alloc.Free(), m.live, m.vol.root);
    hide Mutator.Told, Sound, Spares, Mutator.Held, Orderly, Rooted, Mutation.Kept, Safe;
  }

  /** An operation that is about no file's blocks leaves every file readable at every write. */
  lemma FilesSurvive(m: Mutator, d: Disk, s: Shape, rank: map<Lba, int>, writes: seq<Disk>)
    requires m.Valid() && Began(m, d, s, rank, writes, {}) && m.vol.f.payload > 0
    ensures forall k, t, i :: s.Owns(k) && FileIs(d, m.vol.f, k, t) && |writes| <= i < |m.vol.src.trail| ==>
              FileIs(m.vol.src.trail[i], m.vol.f, k, t)
    ensures forall k, t :: s.Owns(k) && FileIs(d, m.vol.f, k, t) ==> FileIs(m.vol.src.blocks, m.vol.f, k, t)
    ensures forall k, t, i :: s.Owns(k) && Stored(d, m.vol.f, k, t) && |writes| <= i < |m.vol.src.trail| ==>
              Stored(m.vol.src.trail[i], m.vol.f, k, t)
    ensures forall k, t :: s.Owns(k) && Stored(d, m.vol.f, k, t) ==> Stored(m.vol.src.blocks, m.vol.f, k, t)
  {
    hide Mutator.Ready, Orderly, Rooted, Mutation.Kept, IsChain, Canonical, Holds, BlocksOfChain;
    forall k, t | s.Owns(k) && Stored(d, m.vol.f, k, t)
      ensures forall i :: |writes| <= i < |m.vol.src.trail| ==> Stored(m.vol.src.trail[i], m.vol.f, k, t)
      ensures Stored(m.vol.src.blocks, m.vol.f, k, t)
    {
      StoredSurvives(m, d, s, rank, writes, {}, k, t);
    }
    forall k, t | s.Owns(k) && FileIs(d, m.vol.f, k, t)
      ensures forall i :: |writes| <= i < |m.vol.src.trail| ==> FileIs(m.vol.src.trail[i], m.vol.f, k, t)
      ensures FileIs(m.vol.src.blocks, m.vol.f, k, t)
    {
      var c :| IsChain(d, m.vol.f, c) && c.header == k && Holds(d, m.vol.f, c, t);
      FileSurvives(m, d, s, rank, writes, {}, c, t);
    }
  }

  /** Old volume or new volume: in every state since the operation began a search of the
      directories finds exactly one of the trees the operation passes through. */
  lemma EveryCrashShows(m: Mutator, d: Disk, s: Shape, writes: seq<Disk>, mine: set<Lba>)
    requires m.Valid() && m.BeganWith(d, s, writes, mine)
    ensures forall i :: |writes| <= i < |m.vol.src.trail| ==> ShowsOne(m.vol.src.trail[i], m.vol.f, m.vol.root, m.views)
    ensures m.Entries() in m.views
  {
    hide Mutator.Ready, Orderly, Rooted, Mutation.Kept, Mutator.BeganWith, ShowsOne;
    m.ShownSince(d, s, writes, mine);
    ViewIsNow(m);
  }

  lemma ViewIsNow(m: Mutator)
    requires m.Steady()
    ensures m.Entries() in m.views
  {
    m.ViewNow();
  }

  /** What showing a tree means: after a crash anywhere, the search for a name in a
      directory finds the entry filed there under it, or finds out that there is none. */
  method FindShown(v: Volume, ghost tree: map<Lba, Fact>, dir: Lba, name: Bytes) returns (r: Result<Option<Lba>, Error>)
    requires v.f.slots > 0 && Shows(v.src.blocks, v.f, v.root, tree)
              && (dir == v.root || (dir in tree && tree[dir].kind.Directory?))
    ensures r.Ok? <==> |name| <= MaxName(v.f)
    ensures r.Ok? && r.value.Some? ==> Filed(tree, v.f.intl, dir, name, r.value.value)
    ensures r.Ok? && r.value.None? ==> Absent(tree, v.f.intl, dir, name)
  {
    hide InOrder, SameName;
    ghost var s, rank :| ShowsBy(v.src.blocks, v.f, v.root, tree, s, rank);
    MatchesInTree(v.src.blocks, v.f, s, dir, name);
    r := v.Lookup(dir, name, s, rank);
  }

  // ---- The other files ------------------------------------------------------------------------------

  /** Every file but `h` is still in use and reads the same, its tables filled in order if
      they were: what is known of it for the next operation. */
  ghost predicate StillThere(d: Disk, f: Format, s: Shape, h: Lba, e: Disk, t: Shape)
    requires f.payload > 0
  {
    forall k, b :: s.Owns(k) && k != h && FileIs(d, f, k, b) ==>
        t.Owns(k) && FileIs(e, f, k, b) && (Stored(d, f, k, b) ==> Stored(e, f, k, b))
  }

  /** No file header but `h` went out of use. */
  ghost predicate FilesStay(d: Disk, s: Shape, t: Shape, h: Lba) {
    forall k: Lba :: s.Owns(k) && k < |d| && IsFile(d[k]) && k != h ==> t.Owns(k)
  }

  /** No file but `h` has a block in `mine`. */
  ghost predicate Alone(d: Disk, f: Format, s: Shape, h: Lba, mine: set<Lba>)
    requires f.payload > 0
  {
    forall a: FileChain :: IsChain(d, f, a) && s.Owns(a.header) && a.header != h ==> BlocksOfChain(a) !! mine
  }

  lemma ChainIsAlone(d: Disk, f: Format, s: Shape, c: FileChain)
    requires f.payload > 0 && Grown(d, s) && IsChain(d, f, c) && s.Owns(c.header)
    ensures Alone(d, f, s, c.header, BlocksOfChain(c))
  {
    hide Grown, IsChain, BlocksOfChain;
    forall a: FileChain | IsChain(d, f, a) && s.Owns(a.header) && a.header != c.header
      ensures BlocksOfChain(a) !! BlocksOfChain(c)
    {
      ChainsApart(d, f, s, a, c);
    }
  }

  lemma OthersPhase(m: Mutator, d: Disk, s: Shape, h: Lba, from: nat, e: Disk, t: Shape, rank: map<Lba, int>,
          writes: seq<Disk>, mine: set<Lba>)
    requires m.Ready() && Began(m, e, t, rank, writes, mine) && m.vol.f.payload > 0
    requires OthersRead(d, m.vol.f, s, h, writes, from) && StillThere(d, m.vol.f, s, h, e, t)
    requires Alone(e, m.vol.f, t, h, mine)
    requires FilesStay(e, t, m.shape, h)
    ensures OthersRead(d, m.vol.f, s, h, m.vol.src.trail, from)
              && StillThere(d, m.vol.f, s, h, m.vol.src.blocks, m.shape)
  {
    hide Mutator.Ready, IsChain, Holds, BlocksOfChain, Began, Alone, Stored;
    forall k, b | s.Owns(k) && k != h && FileIs(d, m.vol.f, k, b)
      ensures m.shape.Owns(k) && FileIs(m.vol.src.blocks, m.vol.f, k, b)
                && (Stored(d, m.vol.f, k, b) ==> Stored(m.vol.src.blocks, m.vol.f, k, b))
      ensures forall i :: from <= i < |m.vol.src.trail| ==> FileIs(m.vol.src.trail[i], m.vol.f, k, b)
    {
      OtherPhase(m, h, e, t, rank, writes, mine, k, b);
      forall i | from <= i < |m.vol.src.trail|
        ensures FileIs(m.vol.src.trail[i], m.vol.f, k, b)
      {
        if i < |writes| { assert m.vol.src.trail[i] == writes[i]; }
      }
    }
  }

  lemma OtherPhase(m: Mutator, h: Lba, e: Disk, t: Shape, rank: map<Lba, int>, writes: seq<Disk>, mine: set<Lba>,
          k: Lba, b: Bytes)
    requires m.Ready() && Began(m, e, t, rank, writes, mine) && m.vol.f.payload > 0
    requires t.Owns(k) && k != h && FileIs(e, m.vol.f, k, b) && Alone(e, m.vol.f, t, h, mine)
    ensures writes <= m.vol.src.trail && k < |e| && IsFile(e[k])
    ensures FileIs(m.vol.src.blocks, m.vol.f, k, b) && (Stored(e, m.vol.f, k, b) ==>
              Stored(m.vol.src.blocks, m.vol.f, k, b))
    ensures forall i :: |writes| <= i < |m.vol.src.trail| ==> FileIs(m.vol.src.trail[i], m.vol.f, k, b)
  {
    hide Mutator.Ready, IsChain, Holds, BlocksOfChain, Began, Spares, Grown, Stored;
    if Stored(e, m.vol.f, k, b) { StoredSurvives(m, e, t, rank, writes, mine, k, b); }
    var a: FileChain :| IsChain(e, m.vol.f, a) && a.header == k && Holds(e, m.vol.f, a, b);
    ChainHeader(e, m.vol.f, a);
    StatesSpare(m, e, t, rank, writes, mine, a, b);
    FileSurvives(m, e, t, rank, writes, mine, a, b);
  }

  /** Where every block that bears a file was carried over, every file was. */
  lemma CarriedReads(d: Disk, f: Format, s: Shape, e: Disk, t: Shape)
    requires f.payload > 0 && Grown(d, s) && Carries(d, s, e, t)
    ensures StillThere(d, f, s, 0, e, t)
  {
    CarriesSpares(d, s, e, t);
    hide Carries, IsChain, Canonical, Holds, Spares, Grown, BlocksOfChain;
    forall k, b | s.Owns(k) && FileIs(d, f, k, b)
      ensures t.Owns(k) && FileIs(e, f, k, b) && (Stored(d, f, k, b) ==> Stored(e, f, k, b))
    {
      CarriedFile(d, f, s, e, t, k, b);
    }
  }

  lemma CarriesSpares(d: Disk, s: Shape, e: Disk, t: Shape)
    requires Carries(d, s, e, t)
    ensures Spares(d, e, s, {})
  {}

  lemma CarriedFile(d: Disk, f: Format, s: Shape, e: Disk, t: Shape, k: Lba, b: Bytes)
    requires f.payload > 0 && Grown(d, s) && Carries(d, s, e, t) && Spares(d, e, s, {}) && s.Owns(k)
              && FileIs(d, f, k, b)
    ensures t.Owns(k) && FileIs(e, f, k, b) && (Stored(d, f, k, b) ==> Stored(e, f, k, b))
  {
    hide Spares, Grown, BlocksOfChain, Walks, LaidOut, CeilDiv, Chunk;
    var c: FileChain :| IsChain(d, f, c) && c.header == k && Holds(d, f, c, b);
    ChainHeader(d, f, c);
    hide IsChain, Canonical, Holds;
    FileSpared(d, f, s, e, {}, c, b);
    if Stored(d, f, k, b) {
      var a: FileChain :| a.header == k && Canonical(d, f, a) && Holds(d, f, a, b);
      CanonicalIsChain(d, f, a);
      FileSpared(d, f, s, e, {}, a, b);
      CanonicalSpared(d, f, s, e, {}, a);
      StoredNow(e, f, a, b);
    }
  }

  lemma NothingYet(d: Disk, f: Format, s: Shape, h: Lba, trail: seq<Disk>)
    requires f.payload > 0
    ensures OthersRead(d, f, s, h, trail, |trail|) && StillThere(d, f, s, h, d, s)
  {}

  lemma CarriedStays(d: Disk, s: Shape, e: Disk, t: Shape, h: Lba)
    requires Carries(d, s, e, t)
    ensures FilesStay(d, s, t, h)
  {}

  lemma SteadyNow(m: Mutator)
    requires m.Valid()
    ensures m.Steady()
  {
    hide Mutator.Ready, Orderly, Mutation.Kept;
  }

  lemma ReadyNow(m: Mutator)
    requires m.Steady()
    ensures m.Ready()
  {}

  lemma BeganHere(m: Mutator, mine: set<Lba>)
    requires m.Valid() && m.BeganWith(m.vol.src.blocks, m.shape, m.vol.src.trail, mine)
    ensures Began(m, m.vol.src.blocks, m.shape, m.rank, m.vol.src.trail, mine)
  {
    hide Mutator.Ready, Orderly, Mutator.BeganWith;
  }

  lemma BeganPart(m: Mutator, d: Disk, s: Shape, rank: map<Lba, int>, writes: seq<Disk>, mine: set<Lba>)
    requires Began(m, d, s, rank, writes, mine)
    ensures m.BeganWith(d, s, writes, mine)
  {}

  lemma OrderlyNow(m: Mutator)
    requires m.Valid()
    ensures Orderly(m.vol.src.blocks, m.vol.f, m.g, m.shape, m.rank, m.vol.root) && m.vol.f.payload > 0
              && m.vol.f.slots > 0
  {
    hide Sound, Logged, Spares, Mutator.Held, Orderly, Rooted, Mutation.Kept, Mutator.Told;
  }

  lemma BeganOrderly(m: Mutator, d: Disk, s: Shape, rank: map<Lba, int>, writes: seq<Disk>, mine: set<Lba>)
    requires Began(m, d, s, rank, writes, mine)
    ensures Grown(d, s) && Named(d, m.vol.f, s, rank)
  {
    hide Grown, Named;
  }

  // ---- Operations of more than one phase -------------------------------------------------------------

  lemma PastIs(m: Mutator, d: Disk, s: Shape, writes: seq<Disk>)
    requires m.BeganWith(d, s, writes, {})
    ensures m.past == writes
  {}

  lemma ShowsNow(m: Mutator)
    requires m.Steady()
    ensures Shows(m.vol.src.blocks, m.vol.f, m.vol.root, m.Entries())
  {
    hide Sound, Logged, Spares, Mutator.Held, Orderly, Mutation.Kept, Shown, ShowsBy, Tree;
  }

  lemma OnlyView(trail: seq<Disk>, i: nat, from: nat, f: Format, root: Lba, tree: map<Lba, Fact>)
    requires Shown(trail, from, f, root, {tree}) && from <= i < |trail|
    ensures Shows(trail[i], f, root, tree)
  {
    hide Shows;
    assert ShowsOne(trail[i], f, root, {tree});
  }

  lemma OthersSoFar(m: Mutator, d: Disk, s: Shape, rank: map<Lba, int>, writes: seq<Disk>, h: Lba)
    requires m.Valid() && m.vol.f.payload > 0 && Began(m, d, s, rank, writes, {})
              && Carries(d, s, m.vol.src.blocks, m.shape)
    ensures OthersRead(d, m.vol.f, s, h, m.vol.src.trail, |writes|)
              && StillThere(d, m.vol.f, s, h, m.vol.src.blocks, m.shape)
  {
    hide Mutator.Steady, Rooted, OthersRead, StillThere, Began, Carries;
    ReadyNow(m);
    NothingYet(d, m.vol.f, s, h, writes);
    CarriedStays(d, s, m.vol.src.blocks, m.shape, h);
    OthersPhase(m, d, s, h, |writes|, d, s, rank, writes, {});
  }

  lemma OthersThen(m: Mutator, d: Disk, s: Shape, from: nat, now: Disk, t: Shape, trail: seq<Disk>, h: Lba)
    requires m.Valid() && m.vol.f.payload > 0 && Began(m, now, t, m.rank, trail, {})
              && Carries(now, t, m.vol.src.blocks, m.shape)
    requires OthersRead(d, m.vol.f, s, h, trail, from) && StillThere(d, m.vol.f, s, h, now, t)
    ensures OthersRead(d, m.vol.f, s, h, m.vol.src.trail, from)
              && StillThere(d, m.vol.f, s, h, m.vol.src.blocks, m.shape)
  {
    hide Mutator.Steady, Rooted, OthersRead, StillThere, Began, Carries;
    ReadyNow(m);
    CarriedStays(now, t, m.vol.src.blocks, m.shape, h);
    OthersPhase(m, d, s, h, from, now, t, m.rank, trail, {});
  }

  /** What one operation leaves of the other files, and the next. */
  lemma OthersJoin(d: Disk, f: Format, s: Shape, h: Lba, first: seq<Disk>, from: nat, e: Disk, t: Shape,
          all: seq<Disk>, e2: Disk, t2: Shape)
    requires f.payload > 0 && first <= all && OthersRead(d, f, s, h, first, from) && StillThere(d, f, s, h, e, t)
    requires OthersRead(e, f, t, h, all, |first|) && StillThere(e, f, t, h, e2, t2)
    ensures OthersRead(d, f, s, h, all, from) && StillThere(d, f, s, h, e2, t2)
  {
    hide FileIs, Stored;
    forall k, b, i | s.Owns(k) && k != h && FileIs(d, f, k, b) && from <= i < |all|
      ensures FileIs(all[i], f, k, b)
    {
      if i < |first| { assert all[i] == first[i]; }
    }
  }
}
