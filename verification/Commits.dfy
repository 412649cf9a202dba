/**
 The one write that makes an edit of a file take effect: its header's table, extension
 pointer and length change together, and with them which blocks are the file's.
 */
module Commits {
  import opened Words
  import opened Disk
  import opened Forest
  import opened Directories
  import opened Protocol
  import opened Reader
  import opened Steps
  import opened Chains

  /** File header `b` with another table, extension pointer, length and date. */
  predicate Retabled(b: Block, c: Block) {
    && IsFile(b) && c.Header? && c == b.(table := c.table, ext := c.ext, size := c.size, meta := c.meta)
    && c.meta.protection == b.meta.protection && c.meta.owner == b.meta.owner
  }

  /** `gone` is the blocks of the file with header `h`. */
  ghost predicate FileParts(s: Shape, h: Lba, gone: set<Lba>) {
    HangsOff(s, h, gone) && forall y: Lba :: y in gone ==> s.up[y].link.Datum? || s.up[y].link.Ext?
  }

  /** `mine` is a new file's blocks, hanging together, some of them perhaps the old one's. */
  ghost predicate Takes(d: Disk, s: Shape, c: Block, h: Lba, gone: set<Lba>, mine: map<Lba, Edge>) {
    && Hanging(d, mine, mine.Keys) && h !in mine
    && (forall y: Lba :: y in mine ==> y in gone || !s.Owns(y))
    && (forall l :: At(c, l) != 0 && (l.Datum? || l.Ext?) ==> At(c, l) in mine && mine[At(c, l)] == Edge(h, l))
  }

  function Committed(s: Shape, gone: set<Lba>, mine: map<Lba, Edge>): Shape {
    Shape(s.root, (s.up - gone) + mine, s.orphans)
  }

  lemma RetabledIsSmall(b: Block, c: Block)
    requires Retabled(b, c)
    ensures SameEntry(b, c) && SameSlots(b, c) && IsFile(c) && SameWayUp(b, c) && !IsDirectory(c) && !b.Root?
              && !c.Root?
    ensures forall l: Link :: !l.Datum? && !l.Ext? ==> At(c, l) == At(b, l)
    ensures forall l: Link :: At(c, l) != 0 ==> l.Datum? || l.Ext? || l.Chain? || l.Note?
    ensures forall l :: Fits(b, l) <==> Fits(c, l)
  {}

  /** What a file's blocks are, seen from the shape: none is an entry, none names one. */
  lemma PartsNameNothing(d: Disk, f: Format, s: Shape, rank: map<Lba, int>, h: Lba, gone: set<Lba>, y: Lba)
    requires Grown(d, s) && Named(d, f, s, rank) && FileParts(s, h, gone) && IsEntry(s, y)
    ensures y !in gone && s.up[y].from !in gone && s.Owns(s.up[y].from) && y < |d| && d[y].Header?
  {
    assert Placed(d, f, s, rank, y);
    var x, l := s.up[y].from, s.up[y].link;
    if x in gone { PartNamesNothing(d[x], s.up[x].link, l); }
  }

  lemma PartNamesNothing(b: Block, k: Link, l: Link)
    requires Fits(b, k) && (k.Datum? || k.Ext?) && (l.Slot? || l.Chain?)
    ensures At(b, l) == 0 && !b.Header? && !IsDirectory(b)
  {}

  lemma CommittedEntries(d: Disk, f: Format, s: Shape, rank: map<Lba, int>, h: Lba, c: Block, gone: set<Lba>,
          mine: map<Lba, Edge>)
    requires Grown(d, s) && Named(d, f, s, rank) && h < |d| && FileParts(s, h, gone) && Takes(d, s, c, h, gone, mine)
    ensures var t := Committed(s, gone, mine);
            && (forall y: Lba :: IsEntry(t, y) <==> IsEntry(s, y))
            && (forall y: Lba :: IsEntry(s, y) ==> y in t.up && t.up[y] == s.up[y] && t.Owns(s.up[y].from))
  {
    hide At, Fits, Named, Grown, HangsOff;
    var t := Committed(s, gone, mine);
    forall y: Lba
      ensures IsEntry(t, y) <==> IsEntry(s, y)
      ensures IsEntry(s, y) ==> y in t.up && t.up[y] == s.up[y] && t.Owns(s.up[y].from)
    {
      if IsEntry(s, y) {
        PartsNameNothing(d, f, s, rank, h, gone, y);
      }
    }
  }

  lemma CommitGrows(d: Disk, s: Shape, h: Lba, c: Block, gone: set<Lba>, mine: map<Lba, Edge>)
    requires Grown(d, s) && IsEntry(s, h) && h < |d| && Retabled(d[h], c) && FileParts(s, h, gone) && h !in gone
    requires Takes(d, s, c, h, gone, mine)
    ensures Grown(d[h := c], Committed(s, gone, mine))
  {
    RetabledIsSmall(d[h], c);
    HeaderPointsElsewhere(d, s, h, c, gone);
    assert Fits(d[h], s.up[h].link);
    assert forall x: Lba :: x in s.orphans ==> Recorded(d, s, x);
    hide At, Fits, SameEntry, SameSlots, HangsOff;
    var e := d[h := c];
    forall l | At(e[h], l) != 0
      ensures (At(e[h], l) in mine && mine[At(e[h], l)] == Edge(h, l))
                || (At(e[h], l) == At(d[h], l) && At(d[h], l) !in gone)
    {}
    forall y: Lba, l | y in mine && At(e[y], l) != 0
      ensures At(e[y], l) in mine && mine[At(e[y], l)] == Edge(y, l)
    {
      assert e[y] == d[y];
    }
    Regrown(d, e, s, h, gone, mine);
  }

  /** The pointers the header keeps lead to none of its data. */
  lemma HeaderPointsElsewhere(d: Disk, s: Shape, h: Lba, c: Block, gone: set<Lba>)
    requires Grown(d, s) && IsEntry(s, h) && h < |d| && FileParts(s, h, gone)
    ensures forall l: Link :: !l.Datum? && !l.Ext? && At(d[h], l) != 0 ==> At(d[h], l) !in gone
  {
    assert Recorded(d, s, h);
  }

  lemma CommitKeepsOrder(d: Disk, f: Format, g: Geometry, s: Shape, rank: map<Lba, int>, root: Lba, h: Lba, c: Block,
          gone: set<Lba>, mine: map<Lba, Edge>)
    requires Orderly(d, f, g, s, rank, root) && IsEntry(s, h) && h < |d| && Retabled(d[h], c)
    requires FileParts(s, h, gone) && h !in gone && Takes(d, s, c, h, gone, mine)
    ensures Orderly(d[h := c], f, g, Committed(s, gone, mine), rank, root)
    ensures Tree(d[h := c], Committed(s, gone, mine)) == Tree(d, s)
    ensures Rooted(d, s) ==> Rooted(d[h := c], Committed(s, gone, mine))
  {
    hide At, Fits, FactOf, Takes, FileParts, Committed, SlotIn, SameEntry, SameSlots, Retabled, Grown, Named, Tree,
      Rooted, HangsOff, SameWayUp;
    var e, t := d[h := c], Committed(s, gone, mine);
    CommittedRoot(s, gone, mine);
    CommitGrows(d, s, h, c, gone, mine);
    RetabledIsSmall(d[h], c);
    CommittedEntries(d, f, s, rank, h, c, gone, mine);
    OwnedInside(d, s, s.root);
    RootIsRoot(d, s);
    CommitFacts(d, f, s, rank, h, c);
    CommittedTables(d, f, s, rank, h, c, gone, mine);
    NamedFramedHere(d, f, s, rank, h, c, t);
    TreeFramed(d, s, e, t);
    if Rooted(d, s) { RootedFramed(d, s, e, t); }
  }

  lemma CommittedRoot(s: Shape, gone: set<Lba>, mine: map<Lba, Edge>)
    ensures Committed(s, gone, mine).root == s.root
  {}

  lemma RootIsRoot(d: Disk, s: Shape)
    requires Grown(d, s)
    ensures s.root < |d| && d[s.root].Root?
  {
    assert Recorded(d, s, s.root);
  }

  lemma CommitFacts(d: Disk, f: Format, s: Shape, rank: map<Lba, int>, h: Lba, c: Block)
    requires Grown(d, s) && Named(d, f, s, rank) && IsEntry(s, h) && h < |d| && Retabled(d[h], c)
    ensures forall y: Lba :: IsEntry(s, y) && y < |d| ==>
              d[y].Header? && d[h := c][y].Header? && FactOf(d[h := c], d[h := c][y]) == FactOf(d, d[y])
    ensures forall y: Lba :: IsEntry(s, y) && y < |d| ==> SameWayUp(d[y], d[h := c][y])
  {
    forall y: Lba | IsEntry(s, y) && y < |d|
      ensures d[y].Header? && d[h := c][y].Header? && FactOf(d[h := c], d[h := c][y]) == FactOf(d, d[y])
      ensures SameWayUp(d[y], d[h := c][y])
    {
      CommitFact(d, f, s, rank, h, c, y);
    }
  }

  lemma CommitFact(d: Disk, f: Format, s: Shape, rank: map<Lba, int>, h: Lba, c: Block, y: Lba)
    requires Grown(d, s) && Named(d, f, s, rank) && h < |d| && Retabled(d[h], c) && IsEntry(s, y) && y < |d|
    ensures d[y].Header? && d[h := c][y].Header? && FactOf(d[h := c], d[h := c][y]) == FactOf(d, d[y])
    ensures SameWayUp(d[y], d[h := c][y])
  {
    hide Grown, Named, Tree, IsEntry, At;
    EntryIsHeader(d, f, s, rank, y);
    if d[y].note != 0 { NoteIsOwned(d, s, y); }
  }

  lemma CommittedTables(d: Disk, f: Format, s: Shape, rank: map<Lba, int>, h: Lba, c: Block, gone: set<Lba>,
          mine: map<Lba, Edge>)
    requires Grown(d, s) && Named(d, f, s, rank) && h < |d| && Retabled(d[h], c) && Takes(d, s, c, h, gone, mine)
              && FileParts(s, h, gone)
    ensures forall x: Lba :: Committed(s, gone, mine).Owns(x) && x < |d| && IsDirectory(d[h := c][x]) ==>
              |HashTable(d[h := c][x])| == f.slots
  {
    forall x: Lba | Committed(s, gone, mine).Owns(x) && x < |d| && IsDirectory(d[h := c][x])
      ensures s.Owns(x) && x != h
    {
      RetabledIsSmall(d[h], c);
      if x in mine { PartNamesNothing(d[x], mine[x].link, Chain); }
    }
  }

  lemma NamedFramedHere(d: Disk, f: Format, s: Shape, rank: map<Lba, int>, h: Lba, c: Block, t: Shape)
    requires Named(d, f, s, rank) && h < |d| && SameEntry(d[h], c) && SameSlots(d[h], c)
    requires forall y: Lba :: IsEntry(s, y) <==> IsEntry(t, y)
    requires forall y: Lba :: IsEntry(s, y) ==> y in t.up && t.up[y] == s.up[y] && t.Owns(s.up[y].from)
    requires forall x: Lba :: t.Owns(x) && x < |d| && IsDirectory(d[h := c][x]) ==> |HashTable(d[h := c][x])| == f.slots
    ensures Named(d[h := c], f, t, rank)
  {
    NamedFramed(d, f, s, rank, d[h := c], t);
  }
}
