/**
 The write discipline, apart from any operation: what has to hold of the disk, the
 bitmap on it and the bitmap in memory between two block writes, and which writes
 keep it. `live` is a set of blocks closed under pointers that holds the root, so
 whatever a walk arrives at is in it.
 */
module Protocol {
  import opened Words
  import opened Disk
  import opened Forest
  import opened Directories

  /** No block of `live` is free on the disk or in memory, and the bitmap's own pages
      are among them. */
  ghost predicate Sound(d: Disk, g: Geometry, free: set<Lba>, live: set<Lba>, root: Lba) {
    && Closed(d, live) && root in live
    && (forall x :: x in live ==> x !in free && !FreeOnDisk(d, g, x))
    && (forall i :: 0 <= i < |g.pages| ==> g.pages[i] in live && g.pages[i] < |d| && d[g.pages[i]].Bitmap?)
  }

  lemma SoundIsSafe(d: Disk, g: Geometry, free: set<Lba>, live: set<Lba>, root: Lba)
    requires Sound(d, g, free, live, root)
    ensures Safe(d, g, root)
  {
    ClosedIsSafe(d, g, root, live);
  }

  lemma SamePagesSameFree(d: Disk, e: Disk, g: Geometry)
    requires |d| == |e| && forall i :: 0 <= i < |g.pages| && g.pages[i] < |d| ==> e[g.pages[i]] == d[g.pages[i]]
    ensures forall x :: FreeOnDisk(d, g, x) <==> FreeOnDisk(e, g, x)
  {
    hide FreeBit;
    forall x, i: nat | i < |g.pages|
      ensures FreeInPage(d, g, i, x) <==> FreeInPage(e, g, i, x)
    {}
  }

  /** Any block nothing reaches may be written, and a live one with pointers that stay
      among the live. */
  lemma PutIsSound(d: Disk, g: Geometry, free: set<Lba>, live: set<Lba>, root: Lba, lba: Lba, b: Block)
    requires Sound(d, g, free, live, root) && lba < |d|
    requires lba in live ==> !d[lba].Bitmap? && PointsInto(b, live)
    ensures Sound(d[lba := b], g, free, live, root)
  {
    SamePagesSameFree(d, d[lba := b], g);
  }

  /** Blocks the bitmap has been told about, in memory and on the disk, may join. */
  lemma JoinIsSound(d: Disk, g: Geometry, free: set<Lba>, live: set<Lba>, root: Lba, more: set<Lba>)
    requires Sound(d, g, free, live, root)
    requires forall x :: x in more ==> x < |d| && PointsInto(d[x], live + more) && x !in free && !FreeOnDisk(d, g, x)
    ensures Sound(d, g, free, live + more, root)
  {
    forall x | x in live
      ensures PointsInto(d[x], live + more)
    {
      assert PointsInto(d[x], live);
    }
  }

  lemma FlushIsSound(d: Disk, g: Geometry, free: set<Lba>, live: set<Lba>, root: Lba, e: Disk)
    requires Sound(d, g, free, live, root) && Flushed(g, free, d, e)
    ensures Sound(e, g, free, live, root)
  {
    forall x | x in live
      ensures PointsInto(e[x], live)
    {
      assert PointsInto(d[x], live);
    }
  }

  // ---- What the files see -----------------------------------------------------------

  /** A block that bears a file's content or the pointers to it. */
  predicate BearsFile(b: Block) {
    IsContent(b) || b.List? || IsFile(b)
  }

  /** `c` in the place of `b` changes nothing a reader of a file is told. */
  predicate KeepsFile(b: Block, c: Block) {
    && (IsContent(b) || b.List? ==> c == b)
    && (IsFile(b) ==> IsFile(c) && c.table == b.table && c.ext == b.ext && c.size == b.size)
  }

  /** From `d` to `e` nothing of a file changed outside the blocks of `busy`. */
  ghost predicate Spares(d: Disk, e: Disk, s: Shape, busy: set<Lba>) {
    |e| == |d| && forall x: Lba :: s.Owns(x) && x !in busy && x < |d| ==> KeepsFile(d[x], e[x])
  }

  /** Every block of a file is still in use and says what it said. */
  ghost predicate Carries(d: Disk, s: Shape, e: Disk, t: Shape) {
    |e| == |d| && forall x: Lba :: s.Owns(x) && x < |d| && BearsFile(d[x]) ==> t.Owns(x) && KeepsFile(d[x], e[x])
  }

  lemma CarriesItself(d: Disk, s: Shape)
    ensures Carries(d, s, d, s)
  {}

  lemma CarriesOn(d: Disk, s: Shape, e: Disk, t: Shape, h: Disk, u: Shape)
    requires Carries(d, s, e, t) && Carries(e, t, h, u)
    ensures Carries(d, s, h, u)
  {}

  lemma PagesCarryNoFile(d: Disk, s: Shape, e: Disk, g: Geometry)
    requires PagesRewritten(d, e, g)
    requires forall i :: 0 <= i < |g.pages| ==> g.pages[i] < |d| && d[g.pages[i]].Bitmap?
    ensures Carries(d, s, e, s)
  {}

  lemma CacheBearsNoFile(d: Disk, e: Disk, s: Shape, busy: set<Lba>, x: Lba)
    requires Spares(d, e, s, busy) && x < |e| && (e[x].Cache? || e[x].Comment?)
    ensures s.Owns(x) && x !in busy ==> !BearsFile(d[x])
  {}

  /** The states a crash may leave since the operation began at `base`. */
  ghost predicate Logged(trail: seq<Disk>, g: Geometry, root: Lba, past: seq<Disk>, base: Disk, s: Shape,
          busy: set<Lba>) {
    && past <= trail
    && (forall i :: 0 <= i < |trail| ==> Safe(trail[i], g, root))
    && (forall i :: |past| <= i < |trail| ==> Spares(base, trail[i], s, busy))
  }

  lemma PutIsSpared(base: Disk, d: Disk, s: Shape, busy: set<Lba>, lba: Lba, b: Block)
    requires Spares(base, d, s, busy) && lba < |d|
    requires s.Owns(lba) && lba !in busy ==> KeepsFile(base[lba], b)
    ensures Spares(base, d[lba := b], s, busy)
  {}

  lemma FlushIsSpared(base: Disk, d: Disk, s: Shape, busy: set<Lba>, g: Geometry, free: set<Lba>, e: Disk)
    requires Spares(base, d, s, busy) && Flushed(g, free, d, e)
    requires forall i :: 0 <= i < |g.pages| ==> g.pages[i] in busy
    ensures Spares(base, e, s, busy)
  {
    forall x: Lba | s.Owns(x) && x !in busy && x < |base|
      ensures KeepsFile(base[x], e[x])
    {
      assert e[x] == d[x];
    }
  }

  lemma FlushIsLogged(trail: seq<Disk>, more: seq<Disk>, d: Disk, g: Geometry, free: set<Lba>, live: set<Lba>,
          root: Lba, past: seq<Disk>, base: Disk, s: Shape, busy: set<Lba>)
    requires Logged(trail, g, root, past, base, s, busy) && Sound(d, g, free, live, root) && Spares(base, d, s, busy)
    requires FlushTrail(g, free, d, trail, more)
    requires forall i :: 0 <= i < |g.pages| ==> g.pages[i] in busy
    ensures Logged(more, g, root, past, base, s, busy)
  {
    forall i | |trail| <= i < |more|
      ensures Safe(more[i], g, root) && Spares(base, more[i], s, busy)
    {
      FlushIsSound(d, g, free, live, root, more[i]);
      SoundIsSafe(more[i], g, free, live, root);
      FlushIsSpared(base, d, s, busy, g, free, more[i]);
    }
    forall i | 0 <= i < |trail|
      ensures more[i] == trail[i]
    {}
  }

  lemma PutIsLogged(trail: seq<Disk>, d: Disk, g: Geometry, free: set<Lba>, live: set<Lba>, root: Lba,
          past: seq<Disk>, base: Disk, s: Shape, busy: set<Lba>)
    requires Logged(trail, g, root, past, base, s, busy) && Sound(d, g, free, live, root) && Spares(base, d, s, busy)
    ensures Logged(trail + [d], g, root, past, base, s, busy)
  {
    SoundIsSafe(d, g, free, live, root);
  }
}
