/**
 The shape of a volume: which block holds the one pointer to each block in use.
 The tree hangs off the root; an entry that has been unlinked but not released is
 the root of a small tree of its own until its blocks are given back.
 */
module Forest {
  import opened Disk

  datatype Edge = Edge(from: Lba, link: Link)

  /** `up[y]` is where the pointer to `y` is kept; `orphans` are unlinked headers. */
  datatype Shape = Shape(root: Lba, up: map<Lba, Edge>, orphans: set<Lba>) {
    /** The blocks of the tree that hangs off the root, and of the orphans' trees. */
    ghost function Members(): set<Lba> {
      up.Keys + {root}
    }

    predicate Owns(x: Lba) {
      x == root || x in up || x in orphans
    }
  }

  /** A pointer of kind `l` may name a block like `b`. */
  predicate Fits(b: Block, l: Link) {
    match l
    case Slot(_) => b.Header?
    case Chain => b.Header?
    case Datum(_) => IsContent(b)
    case Ext => b.List?
    case CacheHead => b.Cache?
    case CacheNext => b.Cache?
    case Note => b.Comment?
    case Page(_) => b.Bitmap?
  }

  /** Every pointer of `x` is recorded, except an orphan's pointer along a hash chain
      it is no longer part of. */
  ghost predicate Recorded(d: Disk, s: Shape, x: Lba) {
    && 0 < x < |d|
    && forall l :: At(d[x], l) != 0 && !(l.Chain? && x in s.orphans) ==>
         At(d[x], l) in s.up && s.up[At(d[x], l)] == Edge(x, l)
  }

  ghost predicate Grown(d: Disk, s: Shape) {
    && Recorded(d, s, s.root) && d[s.root].Root?
    && s.root !in s.up && s.root !in s.orphans
    && (forall x: Lba :: x in s.orphans ==> x !in s.up && Recorded(d, s, x) && d[x].Header?)
    && (forall y: Lba :: y in s.up ==> Recorded(d, s, y) && Fits(d[y], s.up[y].link))
  }

  /** The two blocks hold the same pointers and answer the same questions of type. */
  ghost predicate SamePointers(b: Block, c: Block) {
    && (forall l :: At(b, l) == At(c, l))
    && (forall l :: Fits(b, l) ==> Fits(c, l))
    && (b.Root? <==> c.Root?) && (IsDirectory(b) <==> IsDirectory(c)) && (IsFile(b) <==> IsFile(c))
  }

  lemma GrownIsClosed(d: Disk, s: Shape)
    requires Grown(d, s)
    ensures Closed(d, s.Members())
  {
    forall x: Lba | x in s.Members()
      ensures x < |d| && PointsInto(d[x], s.Members())
    {
      assert Recorded(d, s, x);
    }
  }

  /** A write that moves no pointer, or that lands on a block nobody owns. */
  lemma Unmoved(d: Disk, s: Shape, e: Disk)
    requires Grown(d, s) && |e| == |d|
    requires forall x: Lba :: s.Owns(x) ==> e[x] == d[x] || SamePointers(d[x], e[x])
    requires forall x: Lba :: x in s.orphans ==> e[x].Header?
    ensures Grown(e, s)
  {
    forall x: Lba | s.Owns(x)
      ensures Recorded(e, s, x)
    {
      assert Recorded(d, s, x);
    }
    forall y: Lba | y in s.up
      ensures Fits(e[y], s.up[y].link)
    {
      assert s.Owns(y);
    }
  }

  /** An orphan's header is rewritten: the chain it is no longer part of may change. */
  lemma OrphanRewritten(d: Disk, s: Shape, h: Lba, b: Block)
    requires Grown(d, s) && h in s.orphans && b.Header?
    requires forall l: Link :: !l.Chain? ==> At(b, l) == At(d[h], l)
    ensures 0 < h < |d| && Grown(d[h := b], s)
  {
    assert Recorded(d, s, h);
    var e := d[h := b];
    forall x: Lba | s.Owns(x)
      ensures Recorded(e, s, x)
    {
      assert Recorded(d, s, x);
    }
    forall y: Lba | y in s.up
      ensures Fits(e[y], s.up[y].link)
    {
      assert y != h;
    }
  }

  /** `h` and what hangs off it, `mine`, become an orphan tree. */
  lemma Adopted(d: Disk, s: Shape, h: Lba, mine: map<Lba, Edge>)
    requires Grown(d, s) && 0 < h < |d| && d[h].Header?
    requires !s.Owns(h) && h !in mine && forall y: Lba :: y in mine ==> !s.Owns(y)
    requires forall y: Lba :: y in mine ==> 0 < y < |d| && Fits(d[y], mine[y].link)
    requires forall l :: At(d[h], l) != 0 && !l.Chain? ==> At(d[h], l) in mine && mine[At(d[h], l)] == Edge(h, l)
    requires forall y: Lba, l :: y in mine && At(d[y], l) != 0 ==>
              At(d[y], l) in mine && mine[At(d[y], l)] == Edge(y, l)
    ensures Grown(d, Shape(s.root, s.up + mine, s.orphans + {h}))
  {
    var t := Shape(s.root, s.up + mine, s.orphans + {h});
    forall x: Lba | t.Owns(x)
      ensures Recorded(d, t, x)
    {
      if s.Owns(x) {
        assert Recorded(d, s, x);
      }
    }
  }

  /** The directory block `b` with slot `i` naming `h`. */
  function WithSlot(b: Block, i: nat, h: Lba): Block
    requires IsDirectory(b) && i < |HashTable(b)|
  {
    if b.Root? then b.(heads := b.heads[i := h]) else b.(table := b.table[i := h])
  }

  function Linked(s: Shape, dir: Lba, i: nat, h: Lba, next: Lba): Shape {
    var up := s.up[h := Edge(dir, Slot(i))];
    Shape(s.root, if next == 0 then up else up[next := Edge(h, Chain)], s.orphans - {h})
  }

  lemma LinkedRecord(d: Disk, s: Shape, dir: Lba, i: nat, h: Lba, x: Lba)
    requires Grown(d, s) && h in s.orphans && dir in s.Members()
    requires IsDirectory(d[dir]) && i < |HashTable(d[dir])| && d[h].chain == HashTable(d[dir])[i]
    requires s.Owns(x)
    ensures Recorded(d[dir := WithSlot(d[dir], i, h)], Linked(s, dir, i, h, d[h].chain), x)
  {
    var next := d[h].chain;
    var e := d[dir := WithSlot(d[dir], i, h)];
    var t := Linked(s, dir, i, h, next);
    assert At(d[dir], Slot(i)) == next && At(d[h], Chain) == next;
    SlotSet(d[dir], i, h);
    hide At, Fits, WithSlot, IsDirectory, HashTable;
    assert Recorded(d, s, dir) && Recorded(d, s, x);
    forall l | At(e[x], l) != 0 && !(l.Chain? && x in t.orphans)
      ensures At(e[x], l) in t.up && t.up[At(e[x], l)] == Edge(x, l)
    {
      if x != dir || l != Slot(i) {
        assert At(e[x], l) == At(d[x], l);
      }
    }
  }

  lemma SlotSet(b: Block, i: nat, h: Lba)
    requires IsDirectory(b) && i < |HashTable(b)|
    ensures At(WithSlot(b, i, h), Slot(i)) == h
    ensures forall l :: l != Slot(i) ==> At(WithSlot(b, i, h), l) == At(b, l)
  {}

  /** The one write that enters `h` into directory `dir`, at the head of its slot. */
  lemma LinkedGrows(d: Disk, s: Shape, dir: Lba, i: nat, h: Lba)
    requires Grown(d, s) && h in s.orphans && dir in s.Members()
    requires IsDirectory(d[dir]) && i < |HashTable(d[dir])| && d[h].chain == HashTable(d[dir])[i]
    ensures Grown(d[dir := WithSlot(d[dir], i, h)], Linked(s, dir, i, h, d[h].chain))
  {
    var next := d[h].chain;
    var e := d[dir := WithSlot(d[dir], i, h)];
    var t := Linked(s, dir, i, h, next);
    assert At(d[dir], Slot(i)) == next && Recorded(d, s, dir);
    forall x: Lba | t.Owns(x)
      ensures s.Owns(x) && Recorded(e, t, x)
    {
      LinkedRecord(d, s, dir, i, h, x);
    }
    forall y: Lba | y in t.up
      ensures Fits(e[y], t.up[y].link)
    {
      if y != h && y != next { assert Fits(d[y], s.up[y].link); }
    }
  }

  /** Block `b` with the pointer at `l`, a hash slot or a hash chain, set to `y`. */
  function WithLink(b: Block, l: Link, y: Lba): Block
    requires l.Slot? ==> IsDirectory(b) && l.i < |HashTable(b)|
    requires l.Chain? ==> b.Header?
  {
    match l
    case Slot(i) => WithSlot(b, i, y)
    case Chain => b.(chain := y)
    case _ => b
  }

  function Spliced(s: Shape, h: Lba, next: Lba): Shape
    requires h in s.up
  {
    var up := map y | y in s.up && y != h :: s.up[y];
    Shape(s.root, if next == 0 then up else up[next := s.up[h]], s.orphans + {h})
  }

  lemma SpliceFacts(d: Disk, s: Shape, x: Lba, l: Link, h: Lba)
    requires Grown(d, s) && h in s.up && s.up[h] == Edge(x, l) && (l.Slot? || l.Chain?)
    requires x in s.Members() && At(d[x], l) == h != x
    ensures d[h].Header? && h != d[h].chain
    ensures l.Slot? ==> IsDirectory(d[x]) && l.i < |HashTable(d[x])|
    ensures l.Chain? ==> d[x].Header?
    ensures d[h].chain != 0 ==> d[h].chain in s.up && s.up[d[h].chain] == Edge(h, Chain)
  {
    assert Fits(d[h], l);
    assert Recorded(d, s, h);
    assert At(d[h], Chain) == d[h].chain;
  }

  lemma SplicedRecord(d: Disk, s: Shape, x: Lba, l: Link, h: Lba, z: Lba)
    requires Grown(d, s) && h in s.up && s.up[h] == Edge(x, l) && (l.Slot? || l.Chain?)
    requires x in s.Members() && At(d[x], l) == h != x && d[h].Header? && s.Owns(z)
    requires l.Slot? ==> IsDirectory(d[x]) && l.i < |HashTable(d[x])|
    requires l.Chain? ==> d[x].Header?
    ensures Recorded(d[x := WithLink(d[x], l, d[h].chain)], Spliced(s, h, d[h].chain), z)
  {
    SpliceFacts(d, s, x, l, h);
    var e := d[x := WithLink(d[x], l, d[h].chain)];
    var t := Spliced(s, h, d[h].chain);
    OtherLinksStay(d[x], l, d[h].chain);
    assert Recorded(d, s, z);
    forall k | At(e[z], k) != 0 && !(k.Chain? && z in t.orphans)
      ensures At(e[z], k) in t.up && t.up[At(e[z], k)] == Edge(z, k)
    {
      if z != x || k != l {
        assert At(e[z], k) == At(d[z], k) != h;
      }
    }
  }

  lemma StillFits(b: Block, l: Link, y: Lba, k: Link)
    requires l.Slot? || l.Chain?
    requires l.Slot? ==> IsDirectory(b) && l.i < |HashTable(b)|
    requires l.Chain? ==> b.Header?
    ensures Fits(b, k) <==> Fits(WithLink(b, l, y), k)
    ensures b.Root? <==> WithLink(b, l, y).Root?
    ensures b.Header? <==> WithLink(b, l, y).Header?
  {}

  /** The one write that takes `h` out of its hash chain and leaves it an orphan. */
  lemma SplicedGrows(d: Disk, s: Shape, x: Lba, l: Link, h: Lba)
    requires Grown(d, s) && h in s.up && s.up[h] == Edge(x, l) && (l.Slot? || l.Chain?)
    requires x in s.Members() && At(d[x], l) == h != x && d[h].Header?
    requires l.Slot? ==> IsDirectory(d[x]) && l.i < |HashTable(d[x])|
    requires l.Chain? ==> d[x].Header?
    ensures Grown(d[x := WithLink(d[x], l, d[h].chain)], Spliced(s, h, d[h].chain))
  {
    hide At, Fits, WithLink;
    SpliceFacts(d, s, x, l, h);
    var next := d[h].chain;
    var e := d[x := WithLink(d[x], l, next)];
    var t := Spliced(s, h, next);
    forall z: Lba | t.Owns(z)
      ensures s.Owns(z) && Recorded(e, t, z)
    {
      SplicedRecord(d, s, x, l, h, z);
    }
    forall y: Lba | y in t.up
      ensures Fits(e[y], t.up[y].link)
    {
      SplicedFits(d, s, x, l, h, y);
    }
    StillFits(d[x], l, next, Chain);
  }

  lemma SplicedFits(d: Disk, s: Shape, x: Lba, l: Link, h: Lba, y: Lba)
    requires Grown(d, s) && h in s.up && s.up[h] == Edge(x, l) && (l.Slot? || l.Chain?)
    requires x in s.Members() && At(d[x], l) == h != x && d[h].Header?
    requires l.Slot? ==> IsDirectory(d[x]) && l.i < |HashTable(d[x])|
    requires l.Chain? ==> d[x].Header?
    requires y in Spliced(s, h, d[h].chain).up && y < |d|
    ensures Fits(d[x := WithLink(d[x], l, d[h].chain)][y], Spliced(s, h, d[h].chain).up[y].link)
  {
    SpliceFacts(d, s, x, l, h);
    hide At, Fits, WithLink;
    assert y in s.up && Fits(d[y], s.up[y].link);
    StillFits(d[x], l, d[h].chain, s.up[y].link);
    if y == d[h].chain {
      FitsAnEntry(d[y], s.up[y].link, l);
      FitsAnEntry(d[x := WithLink(d[x], l, d[h].chain)][y], s.up[y].link, l);
    }
  }

  lemma FitsAnEntry(b: Block, k: Link, l: Link)
    requires l.Slot? || l.Chain?
    ensures k.Slot? || k.Chain? ==> (Fits(b, k) <==> Fits(b, l))
  {}

  /** What a splice leaves of the edges. */
  lemma SplicedEdges(s: Shape, h: Lba, next: Lba)
    requires h in s.up && next != h
    ensures var t := Spliced(s, h, next);
            && t.root == s.root && t.orphans == s.orphans + {h} && (next != 0 ==> next in t.up && t.up[next] == s.up[h])
            && forall y: Lba :: y != next ==> (y in t.up <==> y in s.up && y != h) && (y in t.up ==> t.up[y] == s.up[y])
  {}

  lemma OtherLinksStay(b: Block, l: Link, y: Lba)
    requires l.Slot? || l.Chain?
    requires l.Slot? ==> IsDirectory(b) && l.i < |HashTable(b)|
    requires l.Chain? ==> b.Header?
    ensures At(WithLink(b, l, y), l) == y
    ensures forall k :: k != l ==> At(WithLink(b, l, y), k) == At(b, k)
  {}

  /** `gone` is a set of blocks that nothing but `h` and its own members point to. */
  ghost predicate HangsOff(s: Shape, h: Lba, gone: set<Lba>) {
    forall y: Lba :: y in gone ==> y in s.up && (s.up[y].from == h || s.up[y].from in gone)
  }

  /** An orphan and everything that hangs off it leave the shape. */
  lemma Released(d: Disk, s: Shape, h: Lba, gone: set<Lba>)
    requires Grown(d, s) && h in s.orphans && HangsOff(s, h, gone)
    ensures Grown(d, Shape(s.root, s.up - gone, s.orphans - {h}))
  {
    var t := Shape(s.root, s.up - gone, s.orphans - {h});
    forall x: Lba | t.Owns(x)
      ensures Recorded(d, t, x)
    {
      assert Recorded(d, s, x);
    }
  }

  /** What hangs off `h` is replaced: `gone` before, `mine` after, on a disk where only
      those blocks and `h` itself hold other pointers than they did. */
  lemma Regrown(d: Disk, e: Disk, s: Shape, h: Lba, gone: set<Lba>, mine: map<Lba, Edge>)
    requires Grown(d, s) && |e| == |d| && s.Owns(h) && HangsOff(s, h, gone) && h !in gone
    requires forall y: Lba :: y in mine ==> y in gone || !s.Owns(y)
    requires forall x: Lba :: s.Owns(x) && x !in gone && x != h ==> e[x] == d[x] || SamePointers(d[x], e[x])
    requires forall x: Lba :: x in s.orphans ==> e[x].Header?
    requires (d[h].Root? <==> e[h].Root?) && (d[h].Header? <==> e[h].Header?)
    requires forall y: Lba :: y in mine ==> 0 < y < |e| && Fits(e[y], mine[y].link)
    requires forall l :: At(e[h], l) != 0 ==>
               || (At(e[h], l) in mine && mine[At(e[h], l)] == Edge(h, l))
               || (At(e[h], l) == At(d[h], l) && At(d[h], l) !in gone)
    requires forall y: Lba, l :: y in mine && At(e[y], l) != 0 ==>
              At(e[y], l) in mine && mine[At(e[y], l)] == Edge(y, l)
    requires h in s.up ==> Fits(e[h], s.up[h].link)
    ensures Grown(e, Shape(s.root, (s.up - gone) + mine, s.orphans))
  {
    var t := Shape(s.root, (s.up - gone) + mine, s.orphans);
    forall x: Lba | t.Owns(x)
      ensures Recorded(e, t, x)
    {
      if x !in mine {
        assert s.Owns(x) && x !in gone;
        assert Recorded(d, s, x);
        forall l | At(e[x], l) != 0 && !(l.Chain? && x in t.orphans)
          ensures At(e[x], l) in t.up && t.up[At(e[x], l)] == Edge(x, l)
        {
          if x != h { assert At(e[x], l) == At(d[x], l); }
        }
      }
    }
  }
}
