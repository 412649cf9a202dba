/**
 What each kind of write does to a volume in order: the tree of directories it leaves,
 and that it leaves the volume in order.
 */
module Steps {
  import opened Words
  import opened Disk
  import opened Names
  import opened Forest
  import opened Directories
  import opened Protocol

  /** The shape, the names and the bitmap pages of a volume at rest, or between the writes
      of an operation that has a directory in hand. */
  ghost predicate Orderly(d: Disk, f: Format, g: Geometry, s: Shape, rank: map<Lba, int>, root: Lba) {
    && Grown(d, s) && s.root == root && Named(d, f, s, rank)
    && forall i :: 0 <= i < |g.pages| ==> Nth(d[root].pages, i) == g.pages[i] != 0
  }

  /** What the directories say of an entry, its dates apart; `target` is what a hard link names. */
  datatype Fact = Fact(dir: Lba, name: Bytes, kind: Kind, protection: nat, owner: nat, comment: Bytes, target: Lba,
          path: Bytes)

  /** An entry's comment, from the block it overflowed into where there is one. */
  function CommentOf(d: Disk, b: Block): Bytes
    requires b.Header?
  {
    if b.note != 0 && b.note < |d| && d[b.note].Comment? then d[b.note].text else b.comment
  }

  function FactOf(d: Disk, b: Block): Fact
    requires b.Header?
  {
    Fact(b.parent, b.name, b.kind, b.meta.protection, b.meta.owner, CommentOf(d, b), b.realEntry, UpToNul(b.path))
  }

  /** The volume as its directories show it: for every entry, where it is filed and what
      it is. */
  ghost function Tree(d: Disk, s: Shape): map<Lba, Fact> {
    map y: Lba | y in s.up.Keys && IsEntry(s, y) && y < |d| && d[y].Header? :: FactOf(d, d[y])
  }

  /** No entry of `dir` goes by `name`. */
  predicate Absent(tree: map<Lba, Fact>, intl: bool, dir: Lba, name: Bytes) {
    forall y :: y in tree && tree[y].dir == dir ==> !SameName(tree[y].name, name, intl)
  }

  /** `h` is the entry of `dir` that goes by `name`. */
  predicate Filed(tree: map<Lba, Fact>, intl: bool, dir: Lba, name: Bytes, h: Lba) {
    h in tree && tree[h].dir == dir && SameName(tree[h].name, name, intl)
  }

  lemma MatchesInTree(d: Disk, f: Format, s: Shape, dir: Lba, name: Bytes)
    ensures forall y: Lba :: Matches(d, f, s, dir, name, y) <==>
              y in Tree(d, s) && Tree(d, s)[y].dir == dir && SameName(Tree(d, s)[y].name, name, f.intl)
    ensures Absent(Tree(d, s), f.intl, dir, name) <==> forall y :: !Matches(d, f, s, dir, name, y)
  {
    hide SameName, FactOf;
    forall y: Lba
      ensures Matches(d, f, s, dir, name, y) <==>
              y in Tree(d, s) && Tree(d, s)[y].dir == dir && SameName(Tree(d, s)[y].name, name, f.intl)
    {
      if y in Tree(d, s) { FactsAre(d, d[y]); }
      if Matches(d, f, s, dir, name, y) { FactsAre(d, d[y]); }
    }
  }

  lemma FactsAre(d: Disk, b: Block)
    requires b.Header?
    ensures FactOf(d, b).dir == b.parent && FactOf(d, b).name == b.name && FactOf(d, b).kind == b.kind
  {}

  lemma PagesAreOwned(d: Disk, f: Format, g: Geometry, s: Shape, rank: map<Lba, int>, root: Lba)
    requires Orderly(d, f, g, s, rank, root)
    ensures forall i :: 0 <= i < |g.pages| ==> g.pages[i] in s.up && g.pages[i] < |d| && d[g.pages[i]].Bitmap?
    ensures forall x: Lba :: s.Owns(x) ==> 0 < x < |d|
  {
    forall i | 0 <= i < |g.pages|
      ensures g.pages[i] in s.up && g.pages[i] < |d| && d[g.pages[i]].Bitmap?
    {
      assert At(d[root], Page(i)) == g.pages[i] && Recorded(d, s, root);
      assert Fits(d[g.pages[i]], Page(i)) && Recorded(d, s, g.pages[i]);
    }
  }

  /** The directories of the tree are its root and the directory entries. */
  lemma FolderInTree(d: Disk, s: Shape, dir: Lba)
    requires Grown(d, s)
    ensures IsFolder(d, s, dir) <==> dir == s.root || (dir in Tree(d, s) && Tree(d, s)[dir].kind.Directory?)
  {
    if IsFolder(d, s, dir) && dir != s.root {
      assert Fits(d[dir], s.up[dir].link) && Recorded(d, s, dir);
    }
  }

  lemma FolderPersists(d: Disk, s: Shape, e: Disk, t: Shape, dir: Lba)
    requires Grown(d, s) && Grown(e, t) && s.root == t.root && IsFolder(d, s, dir)
    requires dir in Tree(d, s) ==> dir in Tree(e, t) && Tree(e, t)[dir] == Tree(d, s)[dir]
    ensures IsFolder(e, t, dir)
  {
    FolderInTree(d, s, dir);
    FolderInTree(e, t, dir);
  }

  lemma OwnedInside(d: Disk, s: Shape, x: Lba)
    requires Grown(d, s) && s.Owns(x)
    ensures 0 < x < |d|
  {
    assert Recorded(d, s, x);
  }

  lemma EntryIsHeader(d: Disk, f: Format, s: Shape, rank: map<Lba, int>, y: Lba)
    requires Grown(d, s) && Named(d, f, s, rank) && IsEntry(s, y)
    ensures 0 < y < |d| && d[y].Header? && s.Owns(y) && y in Tree(d, s) && Tree(d, s)[y] == FactOf(d, d[y])
    ensures s.Owns(s.up[y].from)
  {
    assert Placed(d, f, s, rank, y);
  }

  lemma NoteIsOwned(d: Disk, s: Shape, y: Lba)
    requires Grown(d, s) && s.Owns(y) && d[y].Header? && d[y].note != 0
    ensures d[y].note in s.up && s.up[d[y].note] == Edge(y, Note) && d[y].note < |d| && d[d[y].note].Comment?
  {
    assert At(d[y], Note) == d[y].note && Recorded(d, s, y);
    assert Recorded(d, s, d[y].note) && Fits(d[d[y].note], Note);
  }

  lemma TreeFramed(d: Disk, s: Shape, e: Disk, t: Shape)
    requires |e| == |d| && forall y: Lba :: IsEntry(s, y) <==> IsEntry(t, y)
    requires forall y: Lba :: IsEntry(s, y) && y < |d| ==> (d[y].Header? <==> e[y].Header?)
    requires forall y: Lba :: IsEntry(s, y) && y < |d| && d[y].Header? ==> FactOf(d, d[y]) == FactOf(e, e[y])
    ensures Tree(d, s) == Tree(e, t)
  {}

  // ---- What a search of the directories finds -----------------------------------------

  ghost predicate ShowsBy(d: Disk, f: Format, root: Lba, tree: map<Lba, Fact>, s: Shape, rank: map<Lba, int>) {
    s.root == root && InOrder(d, f, s, rank) && IsFolder(d, s, root) && Tree(d, s) == tree
  }

  /** A search of the directories of `d` finds exactly what `tree` says. */
  ghost predicate Shows(d: Disk, f: Format, root: Lba, tree: map<Lba, Fact>) {
    exists s, rank :: ShowsBy(d, f, root, tree, s, rank)
  }

  ghost predicate ShowsOne(d: Disk, f: Format, root: Lba, views: set<map<Lba, Fact>>) {
    exists v :: v in views && Shows(d, f, root, v)
  }

  /** Every state from `from` on shows one of `views`. */
  ghost predicate Shown(trail: seq<Disk>, from: nat, f: Format, root: Lba, views: set<map<Lba, Fact>>) {
    forall i :: from <= i < |trail| ==> ShowsOne(trail[i], f, root, views)
  }

  lemma OrderlyShows(d: Disk, f: Format, g: Geometry, s: Shape, rank: map<Lba, int>, root: Lba)
    requires Orderly(d, f, g, s, rank, root)
    ensures ShowsBy(d, f, root, Tree(d, s), s, rank)
  {
    GrownIsLed(d, s);
    assert Recorded(d, s, s.root);
  }

  lemma ShownMore(trail: seq<Disk>, d: Disk, from: nat, f: Format, root: Lba, views: set<map<Lba, Fact>>, v: map<Lba,
          Fact>, s: Shape, rank: map<Lba, int>)
    requires Shown(trail, from, f, root, views) && ShowsBy(d, f, root, v, s, rank)
    ensures Shown(trail + [d], from, f, root, views + {v})
  {
    hide ShowsBy;
    assert Shows(d, f, root, v);
    hide Shows;
    var more := trail + [d];
    forall i | from <= i < |more|
      ensures ShowsOne(more[i], f, root, views + {v})
    {
      if i < |trail| {
        assert ShowsOne(trail[i], f, root, views);
        var w :| w in views && Shows(trail[i], f, root, w);
        assert w in views + {v} && Shows(more[i], f, root, w);
      } else {
        assert v in views + {v} && Shows(more[i], f, root, v);
      }
    }
  }

  lemma ShownWider(trail: seq<Disk>, from: nat, f: Format, root: Lba, views: set<map<Lba, Fact>>, more: set<map<Lba,
          Fact>>)
    requires Shown(trail, from, f, root, views) && views <= more
    ensures Shown(trail, from, f, root, more)
  {
    hide Shows;
    forall i | from <= i < |trail|
      ensures ShowsOne(trail[i], f, root, more)
    {
      assert ShowsOne(trail[i], f, root, views);
    }
  }

  lemma ShownOn(first: seq<Disk>, all: seq<Disk>, from: nat, f: Format, root: Lba, views: set<map<Lba, Fact>>)
    requires Shown(first, from, f, root, views) && Shown(all, |first|, f, root, views) && first <= all
    ensures Shown(all, from, f, root, views)
  {
    hide ShowsOne;
    forall i | from <= i < |all|
      ensures ShowsOne(all[i], f, root, views)
    {
      if i < |first| { assert all[i] == first[i]; }
    }
  }

  lemma NothingShown(trail: seq<Disk>, f: Format, root: Lba, views: set<map<Lba, Fact>>)
    ensures Shown(trail, |trail|, f, root, views)
  {}

  /** Nothing a search of the directories looks at differs between the two blocks. */
  ghost predicate Alike(b: Block, c: Block) {
    && (forall l :: IsLead(l) ==> At(c, l) == At(b, l))
    && (IsDirectory(b) <==> IsDirectory(c)) && (IsDirectory(b) ==> |HashTable(c)| == |HashTable(b)|)
    && (b.Header? <==> c.Header?) && (b.Comment? <==> c.Comment?) && (b.Comment? ==> c == b)
    && (b.Header? ==>
        && c.name == b.name && c.parent == b.parent && c.kind == b.kind && c.note == b.note && c.comment == b.comment
                      && c.meta.protection == b.meta.protection && c.meta.owner == b.meta.owner
                          && c.realEntry == b.realEntry && c.path == b.path)
  }

  lemma AlikeItself(b: Block)
    ensures Alike(b, b)
  {}

  lemma AlikeKeepsInOrder(d: Disk, f: Format, s: Shape, rank: map<Lba, int>, root: Lba, tree: map<Lba, Fact>, e: Disk)
    requires ShowsBy(d, f, root, tree, s, rank) && |e| == |d|
    requires forall x: Lba :: s.Owns(x) && x < |d| ==> Alike(d[x], e[x])
    ensures ShowsBy(e, f, root, tree, s, rank)
  {
    hide At, Tree, FactOf, SlotIn;
    forall x: Lba | s.Owns(x)
      ensures LedFrom(e, s, x)
    {
      assert LedFrom(d, s, x);
    }
    forall y: Lba | y in s.up && y < |e| && s.up[y].link.Note?
      ensures e[y].Comment?
    {
      assert s.Owns(y);
    }
    AlikeKeepsNames(d, f, s, rank, e);
    AlikeKeepsTree(d, f, s, rank, e);
  }

  lemma AlikeKeepsNames(d: Disk, f: Format, s: Shape, rank: map<Lba, int>, e: Disk)
    requires InOrder(d, f, s, rank) && |e| == |d|
    requires forall x: Lba :: s.Owns(x) && x < |d| ==> Alike(d[x], e[x])
    ensures Named(e, f, s, rank)
  {
    hide At, SlotIn, Led;
    forall y: Lba | IsEntry(s, y)
      ensures y in s.up && s.Owns(s.up[y].from)
    {
      assert Placed(d, f, s, rank, y);
    }
    NamedFramed(d, f, s, rank, e, s);
  }

  lemma AlikeKeepsTree(d: Disk, f: Format, s: Shape, rank: map<Lba, int>, e: Disk)
    requires InOrder(d, f, s, rank) && |e| == |d|
    requires forall x: Lba :: s.Owns(x) && x < |d| ==> Alike(d[x], e[x])
    ensures Tree(e, s) == Tree(d, s)
  {
    forall y: Lba | IsEntry(s, y) && y < |d| && d[y].Header?
      ensures FactOf(d, d[y]) == FactOf(e, e[y])
    {
      assert s.Owns(y) && Alike(d[y], e[y]);
      NoteAlike(d, s, y, e);
    }
    hide FactOf, At, Led, Named, Tree;
    assert forall y: Lba :: IsEntry(s, y) && y < |d| ==> Alike(d[y], e[y]);
    TreeFramed(d, s, e, s);
  }

  lemma NoteAlike(d: Disk, s: Shape, y: Lba, e: Disk)
    requires Led(d, s) && |e| == |d| && s.Owns(y) && y < |d| && d[y].Header? && Alike(d[y], e[y])
    requires forall x: Lba :: s.Owns(x) && x < |d| ==> Alike(d[x], e[x])
    ensures CommentOf(e, e[y]) == CommentOf(d, d[y])
  {
    assert LedFrom(d, s, y) && At(d[y], Note) == d[y].note;
    var n := d[y].note;
    if n != 0 && n < |d| { assert s.Owns(n) && Alike(d[n], e[n]); }
  }

  // ---- A write on a block nothing owns ----------------------------------------------

  lemma LooseKeepsOrder(d: Disk, f: Format, g: Geometry, s: Shape, rank: map<Lba, int>, root: Lba, lba: Lba, b: Block)
    requires Orderly(d, f, g, s, rank, root) && lba < |d| && !s.Owns(lba)
    ensures Orderly(d[lba := b], f, g, s, rank, root)
    ensures Tree(d[lba := b], s) == Tree(d, s)
    ensures Rooted(d, s) ==> Rooted(d[lba := b], s)
  {
    var e := d[lba := b];
    forall x: Lba | s.Owns(x)
      ensures x < |d| && e[x] == d[x]
    {
      OwnedInside(d, s, x);
    }
    BlocksAlikeKeepOrder(d, f, g, s, rank, root, e);
  }

  /** Nothing owned was written. */
  lemma BlocksAlikeKeepOrder(d: Disk, f: Format, g: Geometry, s: Shape, rank: map<Lba, int>, root: Lba, e: Disk)
    requires Orderly(d, f, g, s, rank, root) && |e| == |d|
    requires forall x: Lba :: s.Owns(x) && x < |d| ==> e[x] == d[x] || Quiet(d[x], e[x])
    ensures Orderly(e, f, g, s, rank, root)
    ensures Tree(e, s) == Tree(d, s)
    ensures Rooted(d, s) ==> Rooted(e, s)
  {
    hide At, Fits, SlotIn;
    forall x: Lba | s.Owns(x)
      ensures 0 < x < |d|
    {
      OwnedInside(d, s, x);
    }
    Unmoved(d, s, e);
    forall y: Lba | IsEntry(s, y)
      ensures y < |d| && s.Owns(y) && s.Owns(s.up[y].from) && d[y].Header? && FactOf(d, d[y]) == FactOf(e, e[y])
    {
      EntryIsHeader(d, f, s, rank, y);
      if d[y].note != 0 { NoteIsOwned(d, s, y); }
    }
    TreeFramed(d, s, e, s);
    NamedFramed(d, f, s, rank, e, s);
    if Rooted(d, s) { RootedFramed(d, s, e, s); }
  }

  // ---- A write that moves no pointer and renames nothing ----------------------------

  /** `c` differs from `b` in no pointer and in nothing a directory says: in dates, in the
      accounts the root keeps, in the links between hard links, in bytes of content, or as
      one page of bits from another. */
  ghost predicate Quiet(b: Block, c: Block) {
    && SamePointers(b, c) && SameEntry(b, c) && SameSlots(b, c)
    && (IsDirectory(b) ==> IsDirectory(c) && |HashTable(b)| == |HashTable(c)|)
    && (b.Root? ==> c.Root? && c.pages == b.pages)
    && (b.Comment? ==> c == b)
    && (b.Header? ==> && c.Header? && c.kind == b.kind && c.note == b.note && c.comment == b.comment
                      && c.meta.protection == b.meta.protection && c.meta.owner == b.meta.owner
                      && c.realEntry == b.realEntry && c.path == b.path)
  }

  /** And in nothing a file's reader is told. */
  ghost predicate Neutral(b: Block, c: Block) {
    Quiet(b, c) && KeepsFile(b, c)
  }

  lemma ContentsAreQuiet(b: Block, c: Block)
    requires IsContent(b) && IsContent(c)
    ensures Quiet(b, c)
  {}

  // ---- A header becomes an orphan, an orphan is rewritten --------------------------

  lemma AdoptKeepsOrder(d: Disk, f: Format, g: Geometry, s: Shape, rank: map<Lba, int>, root: Lba, h: Lba,
          mine: map<Lba, Edge>)
    requires Orderly(d, f, g, s, rank, root) && 0 < h < |d| && d[h].Header?
    requires !s.Owns(h) && h !in mine && forall y: Lba :: y in mine ==> !s.Owns(y)
    requires forall y: Lba :: y in mine ==>
              0 < y < |d| && Fits(d[y], mine[y].link) && !mine[y].link.Slot? && !mine[y].link.Chain?
    requires forall l :: At(d[h], l) != 0 && !l.Chain? ==> At(d[h], l) in mine && mine[At(d[h], l)] == Edge(h, l)
    requires forall y: Lba, l :: y in mine && At(d[y], l) != 0 ==>
              At(d[y], l) in mine && mine[At(d[y], l)] == Edge(y, l)
    requires IsDirectory(d[h]) ==> |HashTable(d[h])| == f.slots
    ensures Orderly(d, f, g, Shape(s.root, s.up + mine, s.orphans + {h}), rank, root)
    ensures Tree(d, Shape(s.root, s.up + mine, s.orphans + {h})) == Tree(d, s)
    ensures Rooted(d, s) ==> Rooted(d, Shape(s.root, s.up + mine, s.orphans + {h}))
  {
    var t := Shape(s.root, s.up + mine, s.orphans + {h});
    Adopted(d, s, h, mine);
    forall y: Lba | y in mine
      ensures !IsDirectory(d[y])
    {
      OnlyEntriesAreDirectories(d[y], mine[y].link);
    }
    hide At, Fits, SlotIn, Recorded, IsDirectory, HashTable;
    OwnedInside(d, s, s.root);
    forall y: Lba
      ensures IsEntry(s, y) <==> IsEntry(t, y)
      ensures IsEntry(s, y) ==> y in t.up && t.up[y] == s.up[y] && t.Owns(s.up[y].from)
    {
      if IsEntry(s, y) { EntryIsHeader(d, f, s, rank, y); }
    }
    AdoptedNames(d, f, s, rank, t);
    hide SameEntry, SameSlots, Grown, Named;
    TreeFramed(d, s, d, t);
    if Rooted(d, s) { RootedFramed(d, s, d, t); }
  }

  lemma OnlyEntriesAreDirectories(b: Block, l: Link)
    requires Fits(b, l) && !l.Slot? && !l.Chain?
    ensures !IsDirectory(b)
  {}

  lemma AdoptedNames(d: Disk, f: Format, s: Shape, rank: map<Lba, int>, t: Shape)
    requires Named(d, f, s, rank)
    requires forall y: Lba :: IsEntry(s, y) <==> IsEntry(t, y)
    requires forall y: Lba :: IsEntry(s, y) ==> y in t.up && t.up[y] == s.up[y] && t.Owns(s.up[y].from)
    requires forall x: Lba :: t.Owns(x) && !s.Owns(x) && x < |d| && IsDirectory(d[x]) ==> |HashTable(d[x])| == f.slots
    ensures Named(d, f, t, rank)
  {
    hide At, SlotIn;
    NamedFramed(d, f, s, rank, d, t);
  }

  /** An orphan's header is given another name, another place and another chain. */
  lemma RewriteKeepsOrder(d: Disk, f: Format, g: Geometry, s: Shape, rank: map<Lba, int>, root: Lba, h: Lba, b: Block)
    requires Orderly(d, f, g, s, rank, root) && h in s.orphans && b.Header? && d[h].Header? && b.kind == d[h].kind
    requires forall l: Link :: !l.Chain? ==> At(b, l) == At(d[h], l)
    requires IsDirectory(b) ==> |HashTable(b)| == f.slots
    ensures 0 < h < |d| && Orderly(d[h := b], f, g, s, rank, root)
    ensures Tree(d[h := b], s) == Tree(d, s)
  {
    hide At, Fits, SlotIn, FactOf, Tree;
    OrphanRewritten(d, s, h, b);
    var e := d[h := b];
    OrphanIsNoEntry(d, s, h);
    OwnedInside(d, s, root);
    forall y: Lba | IsEntry(s, y)
      ensures y < |d| && s.Owns(s.up[y].from) && d[y].Header? && e[y] == d[y] && FactOf(d, d[y]) == FactOf(e, e[y])
    {
      EntryIsHeader(d, f, s, rank, y);
      OrphanFactStays(d, s, h, b, y);
    }
    NamedFramed(d, f, s, rank, e, s);
    TreeFramed(d, s, e, s);
  }

  lemma OrphanFactStays(d: Disk, s: Shape, h: Lba, b: Block, y: Lba)
    requires Grown(d, s) && h in s.orphans && h < |d| && d[h].Header? && IsEntry(s, y) && y < |d| && d[y].Header?
    ensures d[h := b][y] == d[y] && FactOf(d[h := b], d[y]) == FactOf(d, d[y])
  {
    if d[y].note != 0 { NoteIsOwned(d, s, y); }
    hide Grown, At;
    OrphanIsNoEntry(d, s, h);
  }

  // ---- The write that enters a name into a directory --------------------------------

  lemma SlotWriteIsSmall(b: Block, i: nat, h: Lba)
    requires IsDirectory(b) && i < |HashTable(b)|
    ensures var c := WithSlot(b, i, h);
            && (b.Header? <==> c.Header?) && (b.Root? <==> c.Root?) && IsDirectory(c)
            && (b.Header? ==> c.name == b.name && c.parent == b.parent && c.kind == b.kind && c.note == b.note
                              && c.comment == b.comment && c.meta == b.meta && c.realEntry == b.realEntry
                                  && c.path == b.path && c.chain == b.chain)
            && (b.Root? ==> c.pages == b.pages) && |HashTable(c)| == |HashTable(b)| && KeepsFile(b, c)
    ensures forall l :: l != Slot(i) ==> At(WithSlot(b, i, h), l) == At(b, l)
  {}

  lemma LinkKeepsOrder(d: Disk, f: Format, g: Geometry, s: Shape, rank: map<Lba, int>, root: Lba, dir: Lba, i: nat,
          h: Lba)
    requires Orderly(d, f, g, s, rank, root) && h in s.orphans && IsFolder(d, s, dir) && d[h].Header?
    requires i < |HashTable(d[dir])| && d[h].chain == HashTable(d[dir])[i]
    requires d[h].parent == dir && i == SlotIn(f, d[h].name)
    requires forall y :: !Matches(d, f, s, dir, d[h].name, y)
    ensures Orderly(d[dir := WithSlot(d[dir], i, h)], f, g, Linked(s, dir, i, h, d[h].chain),
              RankedFirst(rank, h, d[h].chain), root)
    ensures Tree(d[dir := WithSlot(d[dir], i, h)], Linked(s, dir, i, h, d[h].chain)) == Tree(d, s)[h := FactOf(d, d[h])]
  {
    var e := d[dir := WithSlot(d[dir], i, h)];
    var t := Linked(s, dir, i, h, d[h].chain);
    SlotWriteIsSmall(d[dir], i, h);
    LinkedGrows(d, s, dir, i, h);
    LinkedIsNamed(d, f, s, rank, dir, i, h);
    hide At, Fits, SlotIn, WithSlot, Named, Linked;
    FactsStay(d, f, s, rank, dir, e[dir], h);
    forall y: Lba
      ensures IsEntry(t, y) <==> IsEntry(s, y) || y == h
    {
      LinkedEntries(d, s, dir, i, h, y);
    }
    TreeGains(d, s, e, t, h);
  }

  /** A write on a directory block that renames nothing leaves every fact as it was. */
  lemma FactsStay(d: Disk, f: Format, s: Shape, rank: map<Lba, int>, x: Lba, b: Block, h: Lba)
    requires Grown(d, s) && Named(d, f, s, rank) && s.Owns(h) && h < |d| && d[h].Header?
    requires x < |d| && (d[x].Root? || d[x].Header?) && (b.Header? <==> d[x].Header?) && !b.Comment?
    requires b.Header? ==>
              && b.name == d[x].name && b.parent == d[x].parent && b.kind == d[x].kind && b.note == d[x].note
                           && b.comment == d[x].comment && b.meta == d[x].meta && b.realEntry == d[x].realEntry
                               && b.path == d[x].path
    ensures forall y: Lba :: IsEntry(s, y) || y == h ==>
              y < |d| && d[y].Header? && d[x := b][y].Header? && FactOf(d, d[y]) == FactOf(d[x := b], d[x := b][y])
  {
    hide At, Fits, SlotIn;
    forall y: Lba | IsEntry(s, y) || y == h
      ensures y < |d| && d[y].Header? && d[x := b][y].Header? && FactOf(d, d[y]) == FactOf(d[x := b], d[x := b][y])
    {
      if IsEntry(s, y) { EntryIsHeader(d, f, s, rank, y); }
      if d[y].note != 0 { NoteIsOwned(d, s, y); }
    }
  }

  lemma TreeGains(d: Disk, s: Shape, e: Disk, t: Shape, h: Lba)
    requires |e| == |d| && h < |d| && d[h].Header?
    requires forall y: Lba :: IsEntry(t, y) <==> IsEntry(s, y) || y == h
    requires forall y: Lba :: IsEntry(s, y) || y == h ==>
              y < |d| && d[y].Header? && e[y].Header? && FactOf(d, d[y]) == FactOf(e, e[y])
    ensures Tree(e, t) == Tree(d, s)[h := FactOf(d, d[h])]
  {
    hide FactOf;
    forall y: Lba
      ensures y in Tree(e, t) <==> y in Tree(d, s) || y == h
    {
      assert IsEntry(t, y) <==> IsEntry(s, y) || y == h;
    }
    assert Tree(e, t).Keys == Tree(d, s).Keys + {h};
  }

  lemma TreeLoses(d: Disk, s: Shape, e: Disk, t: Shape, h: Lba)
    requires |e| == |d|
    requires forall y: Lba :: IsEntry(t, y) <==> IsEntry(s, y) && y != h
    requires forall y: Lba :: IsEntry(s, y) ==>
              y < |d| && d[y].Header? && e[y].Header? && FactOf(d, d[y]) == FactOf(e, e[y])
    ensures Tree(e, t) == Tree(d, s) - {h}
  {
    hide FactOf;
    assert Tree(e, t).Keys == (Tree(d, s) - {h}).Keys;
  }

  /** A name nobody is filed under yet does not disturb the way up. */
  lemma LinkIsRooted(d: Disk, f: Format, s: Shape, rank: map<Lba, int>, dir: Lba, i: nat, h: Lba)
    requires Grown(d, s) && Named(d, f, s, rank) && Rooted(d, s) && h in s.orphans && IsFolder(d, s, dir)
              && d[h].Header?
    requires i < |HashTable(d[dir])| && d[h].chain == HashTable(d[dir])[i] && d[h].parent == dir
    ensures Rooted(d[dir := WithSlot(d[dir], i, h)], Linked(s, dir, i, h, d[h].chain))
  {
    var e := d[dir := WithSlot(d[dir], i, h)];
    var t := Linked(s, dir, i, h, d[h].chain);
    SlotWriteIsSmall(d[dir], i, h);
    FolderClimbs(d, f, s, rank, dir);
    var up :| Climbs(d, s, dir, up);
    forall y: Lba
      ensures IsEntry(t, y) <==> IsEntry(s, y) || y == h
    {
      LinkedEntries(d, s, dir, i, h, y);
    }
    hide At, Fits, SlotIn, WithSlot, Named, Linked, Recorded;
    NotOnTheWay(d, s, up, h);
    OwnedInside(d, s, h);
    OwnedInside(d, s, s.root);
    assert IsDirectory(d[s.root]);
    assert ClimbStep(e, t, h, up[0]);
    MovedIsRooted(d, s, e, t, h, up);
  }

  lemma NotOnTheWay(d: Disk, s: Shape, up: seq<Lba>, h: Lba)
    requires |up| > 0 && Climbs(d, s, up[0], up) && !IsEntry(s, h) && h != s.root
    ensures h !in up
  {
    forall k | 0 <= k < |up|
      ensures up[k] != h
    {
      if k < |up| - 1 { assert ClimbStep(d, s, up[k], up[k + 1]); }
    }
  }

  lemma FolderClimbs(d: Disk, f: Format, s: Shape, rank: map<Lba, int>, dir: Lba)
    requires Grown(d, s) && Rooted(d, s) && IsFolder(d, s, dir)
    ensures CanClimb(d, s, dir)
  {
    if dir == s.root {
      assert Climbs(d, s, dir, [dir]);
    } else {
      assert Recorded(d, s, dir) && Fits(d[dir], s.up[dir].link);
      assert IsEntry(s, dir);
    }
  }

  // ---- The write that takes a name out ----------------------------------------------

  lemma LinkWriteIsSmall(b: Block, l: Link, y: Lba)
    requires l.Slot? || l.Chain?
    requires l.Slot? ==> IsDirectory(b) && l.i < |HashTable(b)|
    requires l.Chain? ==> b.Header?
    ensures var c := WithLink(b, l, y);
            && (b.Header? <==> c.Header?) && (b.Root? <==> c.Root?) && (IsDirectory(b) <==> IsDirectory(c))
            && (b.Header? ==> c.name == b.name && c.parent == b.parent && c.kind == b.kind && c.note == b.note
                              && c.comment == b.comment && c.meta == b.meta && c.realEntry == b.realEntry
                                  && c.path == b.path)
            && (b.Root? ==> c.pages == b.pages) && (IsDirectory(b) ==> |HashTable(c)| == |HashTable(b)|)
                && KeepsFile(b, c)
            && !c.Comment? && !c.Bitmap?
  {}

  lemma SpliceKeepsOrder(d: Disk, f: Format, g: Geometry, s: Shape, rank: map<Lba, int>, root: Lba, x: Lba, l: Link,
          h: Lba)
    requires Orderly(d, f, g, s, rank, root) && h in s.up && s.up[h] == Edge(x, l) && (l.Slot? || l.Chain?)
    requires x in s.Members() && At(d[x], l) == h != x && d[h].Header?
    requires l.Slot? ==> IsDirectory(d[x]) && l.i < |HashTable(d[x])|
    requires l.Chain? ==> d[x].Header?
    ensures Orderly(d[x := WithLink(d[x], l, d[h].chain)], f, g, Spliced(s, h, d[h].chain), rank, root)
    ensures Tree(d[x := WithLink(d[x], l, d[h].chain)], Spliced(s, h, d[h].chain)) == Tree(d, s) - {h}
  {
    var e := d[x := WithLink(d[x], l, d[h].chain)];
    var t := Spliced(s, h, d[h].chain);
    LinkWriteIsSmall(d[x], l, d[h].chain);
    SplicedGrows(d, s, x, l, h);
    SplicedIsNamed(d, f, s, rank, x, l, h);
    hide At, Fits, SlotIn, WithLink, Named, Spliced;
    FactsStay(d, f, s, rank, x, e[x], h);
    forall y: Lba
      ensures IsEntry(t, y) <==> IsEntry(s, y) && y != h
    {
      SplicedEntries(d, s, x, l, h, y);
    }
    TreeLoses(d, s, e, t, h);
  }

  lemma SpliceIsRooted(d: Disk, f: Format, s: Shape, rank: map<Lba, int>, x: Lba, l: Link, h: Lba)
    requires Grown(d, s) && Named(d, f, s, rank) && Rooted(d, s)
    requires h in s.up && s.up[h] == Edge(x, l) && (l.Slot? || l.Chain?)
    requires x in s.Members() && At(d[x], l) == h != x && d[h].Header?
    requires l.Slot? ==> IsDirectory(d[x]) && l.i < |HashTable(d[x])|
    requires l.Chain? ==> d[x].Header?
    requires forall y: Lba :: IsEntry(s, y) && y < |d| && d[y].Header? ==> d[y].parent != h
    ensures Rooted(d[x := WithLink(d[x], l, d[h].chain)], Spliced(s, h, d[h].chain))
  {
    var e := d[x := WithLink(d[x], l, d[h].chain)];
    var t := Spliced(s, h, d[h].chain);
    LinkWriteIsSmall(d[x], l, d[h].chain);
    forall y: Lba
      ensures IsEntry(t, y) <==> IsEntry(s, y) && y != h
    {
      SplicedEntries(d, s, x, l, h, y);
    }
    hide At, Fits, SlotIn, WithLink, Named, Spliced;
    OwnedInside(d, s, s.root);
    RemovedIsRooted(d, s, e, t, h);
  }

  lemma LinkCarries(d: Disk, s: Shape, dir: Lba, i: nat, h: Lba)
    requires dir < |d| && IsDirectory(d[dir]) && i < |HashTable(d[dir])| && h < |d| && d[h].Header?
    ensures Carries(d, s, d[dir := WithSlot(d[dir], i, h)], Linked(s, dir, i, h, d[h].chain))
  {
    SlotWriteIsSmall(d[dir], i, h);
    hide WithSlot;
  }

  lemma SpliceCarries(d: Disk, s: Shape, x: Lba, l: Link, h: Lba)
    requires x < |d| && (l.Slot? || l.Chain?) && h in s.up && h < |d| && d[h].Header?
    requires l.Slot? ==> IsDirectory(d[x]) && l.i < |HashTable(d[x])|
    requires l.Chain? ==> d[x].Header?
    ensures Carries(d, s, d[x := WithLink(d[x], l, d[h].chain)], Spliced(s, h, d[h].chain))
  {
    LinkWriteIsSmall(d[x], l, d[h].chain);
    hide WithLink;
  }

  // ---- Dates and accounts --------------------------------------------------------------

  function Dated(b: Block, now: Date): Block
    requires b.Header?
  {
    b.(meta := b.meta.(date := now))
  }

  function Stamped(b: Block, now: Date, dirToo: bool): Block
    requires b.Root?
  {
    if dirToo then b.(altered := now, dirAltered := now) else b.(altered := now)
  }

  function Accounted(b: Block, used: nat): Block
    requires b.Root?
  {
    b.(used := used, valid := true)
  }

  function LinkedOn(b: Block, next: Lba): Block
    requires b.Header?
  {
    b.(nextLink := next)
  }

  lemma NeutralItself(b: Block)
    ensures Neutral(b, b)
  {}

  lemma StampsAreNeutral(b: Block, now: Date, dirToo: bool)
    requires b.Root?
    ensures Neutral(b, Stamped(b, now, dirToo))
  {}

  lemma AccountsAreNeutral(b: Block, used: nat)
    requires b.Root?
    ensures Neutral(b, Accounted(b, used))
  {}

  lemma LinksAreNeutral(b: Block, next: Lba)
    requires b.Header?
    ensures Neutral(b, LinkedOn(b, next))
  {}

  /** No directory is an entry of its own. */
  lemma NotItsOwnEntry(d: Disk, s: Shape, dir: Lba)
    requires Grown(d, s) && Rooted(d, s)
    ensures !EntryOf(d, s, dir, dir)
  {
    if EntryOf(d, s, dir, dir) {
      assert CanClimb(d, s, dir);
      var path :| Climbs(d, s, dir, path);
      var i := 0;
      while i < |path| - 1
        invariant 0 <= i < |path| && path[i] == dir
      {
        assert ClimbStep(d, s, path[i], path[i + 1]);
        i := i + 1;
      }
      assert false;
    }
  }

  // ---- An orphan's blocks are given back ------------------------------------------------

  predicate BelongsToOne(l: Link) {
    l.Datum? || l.Ext? || l.CacheHead? || l.CacheNext? || l.Note?
  }

  /** The blocks of `gone` are the contents, the cache and the comment of header `h`. */
  ghost predicate Belongings(s: Shape, h: Lba, gone: set<Lba>) {
    HangsOff(s, h, gone) && forall y: Lba :: y in gone ==> BelongsToOne(s.up[y].link)
  }

  predicate EmptyTable(b: Block) {
    IsDirectory(b) ==> forall i :: 0 <= i < |HashTable(b)| ==> HashTable(b)[i] == 0
  }

  lemma OnlyHeadersName(d: Disk, f: Format, s: Shape, rank: map<Lba, int>, h: Lba, gone: set<Lba>, y: Lba)
    requires Grown(d, s) && Named(d, f, s, rank) && h in s.orphans && Belongings(s, h, gone)
    requires h < |d| && EmptyTable(d[h]) && IsEntry(s, y)
    ensures y !in gone && s.up[y].from != h && s.up[y].from !in gone && s.Owns(s.up[y].from)
  {
    assert Placed(d, f, s, rank, y);
    var x, l := s.up[y].from, s.up[y].link;
    if x == h { EmptyNamesNothing(d[h], l); }
    if x in gone { BelongingNamesNothing(d[x], s.up[x].link, l); }
  }

  lemma EmptyNamesNothing(b: Block, l: Link)
    requires EmptyTable(b) && l.Slot?
    ensures At(b, l) == 0
  {}

  lemma BelongingNamesNothing(b: Block, k: Link, l: Link)
    requires BelongsToOne(k) && Fits(b, k) && (l.Slot? || l.Chain?)
    ensures At(b, l) == 0
  {}

  lemma ReleaseKeepsOrder(d: Disk, f: Format, g: Geometry, s: Shape, rank: map<Lba, int>, root: Lba, h: Lba,
          gone: set<Lba>)
    requires Orderly(d, f, g, s, rank, root) && h in s.orphans && Belongings(s, h, gone)
    requires h < |d| && EmptyTable(d[h])
    ensures Orderly(d, f, g, Shape(s.root, s.up - gone, s.orphans - {h}), rank, root)
    ensures Tree(d, Shape(s.root, s.up - gone, s.orphans - {h})) == Tree(d, s)
    ensures Rooted(d, s) ==> Rooted(d, Shape(s.root, s.up - gone, s.orphans - {h}))
  {
    var t := Shape(s.root, s.up - gone, s.orphans - {h});
    Released(d, s, h, gone);
    OwnedInside(d, s, s.root);
    hide At, Fits, SlotIn, HangsOff, EmptyTable;
    forall y: Lba
      ensures IsEntry(s, y) <==> IsEntry(t, y)
      ensures IsEntry(s, y) ==> y in t.up && t.up[y] == s.up[y] && t.Owns(s.up[y].from)
    {
      if IsEntry(s, y) { OnlyHeadersName(d, f, s, rank, h, gone, y); }
    }
    AdoptedNames(d, f, s, rank, t);
    hide Grown, Named;
    TreeFramed(d, s, d, t);
    if Rooted(d, s) { RootedFramed(d, s, d, t); }
  }

  // ---- A header's comment moves in or out of a block of its own --------------------------

  function OneNote(h: Lba, note: Lba): map<Lba, Edge> {
    if note == 0 then map[] else map[note := Edge(h, Note)]
  }

  function NoteSet(note: Lba): set<Lba> {
    if note == 0 then {} else {note}
  }

  /** The comment block of `h` was `was` and is `now`. */
  function Renoted(s: Shape, h: Lba, was: Lba, now: Lba): Shape {
    Shape(s.root, (s.up - NoteSet(was)) + OneNote(h, now), s.orphans)
  }

  /** `c` is header `b` with another comment and other metadata. */
  predicate Reworded(b: Block, c: Block) {
    b.Header? && c.Header? && c == b.(comment := c.comment, note := c.note, meta := c.meta)
  }

  lemma RewordedIsSmall(b: Block, c: Block)
    requires Reworded(b, c)
    ensures SameEntry(b, c) && SameSlots(b, c) && KeepsFile(b, c) && c.kind == b.kind && c.parent == b.parent
              && c.name == b.name
    ensures IsDirectory(b) ==> |HashTable(b)| == |HashTable(c)|
    ensures At(c, Note) == c.note && forall l :: l != Note ==> At(c, l) == At(b, l)
  {}

  lemma RenotedGrows(d: Disk, s: Shape, h: Lba, c: Block)
    requires Grown(d, s) && s.Owns(h) && h < |d| && Reworded(d[h], c)
    requires c.note == d[h].note || c.note == 0 || (!s.Owns(c.note) && c.note < |d| && d[c.note].Comment?)
    requires h in s.orphans && d[h].note != 0 ==> d[h].chain != d[h].note
    ensures Grown(d[h := c], Renoted(s, h, d[h].note, c.note))
  {
    var was, now := d[h].note, c.note;
    var e := d[h := c];
    if was != 0 { NoteIsOwned(d, s, h); }
    RewordedIsSmall(d[h], c);
    OnlyNoteIsNote(d, s, h);
    NoteHasNoPointers(d, s, h, c);
    HeaderFits(d, s, h, c);
    assert forall x: Lba :: x in s.orphans ==> Recorded(d, s, x);
    hide At, Fits, SameEntry, SameSlots, KeepsFile;
    Regrown(d, e, s, h, NoteSet(was), OneNote(h, now));
  }

  lemma HeaderFits(d: Disk, s: Shape, h: Lba, c: Block)
    requires Grown(d, s) && h < |d| && Reworded(d[h], c)
    ensures h in s.up ==> Fits(c, s.up[h].link)
  {
    if h in s.up { assert Fits(d[h], s.up[h].link); }
  }

  lemma NoteHasNoPointers(d: Disk, s: Shape, h: Lba, c: Block)
    requires Grown(d, s) && s.Owns(h) && h < |d| && d[h].Header? && c.Header?
    requires c.note == d[h].note || c.note == 0 || (!s.Owns(c.note) && c.note < |d| && d[c.note].Comment?)
    ensures c.note != 0 ==>
              0 < c.note < |d| && c.note != h && Fits(d[c.note], Note) && forall l :: At(d[c.note], l) == 0
  {
    hide Grown, Reworded, At;
    if c.note != 0 {
      if c.note == d[h].note { NoteIsOwned(d, s, h); }
      CommentPointsNowhere(d[c.note]);
      assert d[h].Header?;
    }
  }

  lemma CommentPointsNowhere(b: Block)
    requires b.Comment?
    ensures forall l :: At(b, l) == 0
  {}

  /** No other pointer of the header leads to its comment block. */
  lemma OnlyNoteIsNote(d: Disk, s: Shape, h: Lba)
    requires Grown(d, s) && s.Owns(h) && h < |d| && d[h].Header?
    requires h in s.orphans && d[h].note != 0 ==> d[h].chain != d[h].note
    ensures forall l :: l != Note && d[h].note != 0 ==> At(d[h], l) != d[h].note
  {
    if d[h].note != 0 {
      NoteIsOwned(d, s, h);
      assert At(d[h], Chain) == d[h].chain && Recorded(d, s, h);
    }
  }

  /** The entries after a comment moved: only what is said of `h` itself changed. */
  lemma RenotedKeepsOrder(d: Disk, f: Format, g: Geometry, s: Shape, rank: map<Lba, int>, root: Lba, h: Lba, c: Block)
    requires Orderly(d, f, g, s, rank, root) && s.Owns(h) && h < |d| && Reworded(d[h], c)
    requires c.note == d[h].note || c.note == 0 || (!s.Owns(c.note) && c.note < |d| && d[c.note].Comment?)
    requires h in s.orphans && d[h].note != 0 ==> d[h].chain != d[h].note
    ensures Orderly(d[h := c], f, g, Renoted(s, h, d[h].note, c.note), rank, root)
    ensures Tree(d[h := c], Renoted(s, h, d[h].note, c.note)) ==
              if IsEntry(s, h) then Tree(d, s)[h := FactOf(d[h := c], c)] else Tree(d, s)
    ensures Rooted(d, s) ==> Rooted(d[h := c], Renoted(s, h, d[h].note, c.note))
  {
    var e, t := d[h := c], Renoted(s, h, d[h].note, c.note);
    RenotedGrows(d, s, h, c);
    RewordedIsSmall(d[h], c);
    RenotedEntries(d, s, h, c);
    RenotedNames(d, f, s, rank, h, c);
    hide At, Fits, SlotIn, SameSlots, Renoted, Grown, Named, FactOf, SameEntry;
    RenotedTree(d, f, s, rank, h, c);
    RenotedRoots(d, f, s, rank, h, c);
  }

  lemma RenotedEntries(d: Disk, s: Shape, h: Lba, c: Block)
    requires Grown(d, s) && s.Owns(h) && h < |d| && Reworded(d[h], c)
    requires c.note == d[h].note || c.note == 0 || (!s.Owns(c.note) && c.note < |d| && d[c.note].Comment?)
    ensures var t := Renoted(s, h, d[h].note, c.note);
            && t.root == s.root && h != s.root && (forall y: Lba :: IsEntry(t, y) <==> IsEntry(s, y))
            && (forall y: Lba :: IsEntry(s, y) ==> y in t.up && t.up[y] == s.up[y])
            && (forall x: Lba :: t.Owns(x) ==> s.Owns(x) || x == c.note)
            && (forall x: Lba :: s.Owns(x) && x != d[h].note ==> t.Owns(x))
            && (d[h].note != 0 && c.note != d[h].note ==> !t.Owns(d[h].note))
  {
    if d[h].note != 0 { NoteIsOwned(d, s, h); }
    assert Recorded(d, s, s.root);
  }

  lemma RenotedNames(d: Disk, f: Format, s: Shape, rank: map<Lba, int>, h: Lba, c: Block)
    requires Grown(d, s) && Named(d, f, s, rank) && s.Owns(h) && h < |d| && Reworded(d[h], c)
    requires c.note == d[h].note || c.note == 0 || (!s.Owns(c.note) && c.note < |d| && d[c.note].Comment?)
    ensures Named(d[h := c], f, Renoted(s, h, d[h].note, c.note), rank)
  {
    var e, t := d[h := c], Renoted(s, h, d[h].note, c.note);
    RenotedEntries(d, s, h, c);
    RewordedIsSmall(d[h], c);
    forall y: Lba | IsEntry(s, y)
      ensures t.Owns(s.up[y].from)
    {
      EntryIsHeader(d, f, s, rank, y);
      FromIsNoNote(d, f, s, rank, h, y);
    }
    hide At, Fits, SlotIn, Renoted, Grown;
    NamedFramed(d, f, s, rank, e, t);
  }

  lemma FromIsNoNote(d: Disk, f: Format, s: Shape, rank: map<Lba, int>, h: Lba, y: Lba)
    requires Grown(d, s) && Named(d, f, s, rank) && s.Owns(h) && h < |d| && d[h].Header? && IsEntry(s, y)
    ensures d[h].note != 0 ==> s.up[y].from != d[h].note && y != d[h].note
  {
    if d[h].note != 0 { NoteIsOwned(d, s, h); }
    assert Placed(d, f, s, rank, y);
  }

  lemma RenotedTree(d: Disk, f: Format, s: Shape, rank: map<Lba, int>, h: Lba, c: Block)
    requires Grown(d, s) && Named(d, f, s, rank) && s.Owns(h) && h < |d| && Reworded(d[h], c)
    requires c.note == d[h].note || c.note == 0 || (!s.Owns(c.note) && c.note < |d| && d[c.note].Comment?)
    ensures Tree(d[h := c], Renoted(s, h, d[h].note, c.note)) ==
              if IsEntry(s, h) then Tree(d, s)[h := FactOf(d[h := c], c)] else Tree(d, s)
  {
    RenotedEntries(d, s, h, c);
    RenotedFacts(d, f, s, rank, h, c);
    hide At, Fits, Named, Renoted, Grown, FactOf;
    TreeSets(d, s, d[h := c], Renoted(s, h, d[h].note, c.note), h);
  }

  lemma RenotedFacts(d: Disk, f: Format, s: Shape, rank: map<Lba, int>, h: Lba, c: Block)
    requires Grown(d, s) && Named(d, f, s, rank) && s.Owns(h) && h < |d| && Reworded(d[h], c)
    ensures forall y: Lba :: IsEntry(s, y) ==>
              y < |d| && d[y].Header? && d[h := c][y].Header?
                  && (y != h ==> FactOf(d[h := c], d[h := c][y]) == FactOf(d, d[y]))
  {
    hide At, Fits, SlotIn;
    forall y: Lba | IsEntry(s, y)
      ensures y < |d| && d[y].Header? && d[h := c][y].Header?
                && (y != h ==> FactOf(d[h := c], d[h := c][y]) == FactOf(d, d[y]))
    {
      EntryIsHeader(d, f, s, rank, y);
      if y != h && d[y].note != 0 { NoteIsOwned(d, s, y); }
    }
  }

  /** One entry's facts changed, no other's. */
  lemma TreeSets(d: Disk, s: Shape, e: Disk, t: Shape, h: Lba)
    requires |e| == |d| && h < |d| && d[h].Header? && e[h].Header?
    requires forall y: Lba :: IsEntry(t, y) <==> IsEntry(s, y)
    requires forall y: Lba :: IsEntry(s, y) ==>
              y < |d| && d[y].Header? && e[y].Header? && (y != h ==> FactOf(e, e[y]) == FactOf(d, d[y]))
    ensures Tree(e, t) == if IsEntry(s, h) then Tree(d, s)[h := FactOf(e, e[h])] else Tree(d, s)
  {
    hide FactOf;
    if IsEntry(s, h) {
      assert Tree(e, t).Keys == Tree(d, s).Keys + {h};
    } else {
      TreeFramed(d, s, e, t);
    }
  }

  lemma RenotedRoots(d: Disk, f: Format, s: Shape, rank: map<Lba, int>, h: Lba, c: Block)
    requires Grown(d, s) && Named(d, f, s, rank) && s.Owns(h) && h < |d| && Reworded(d[h], c)
    requires c.note == d[h].note || c.note == 0 || (!s.Owns(c.note) && c.note < |d| && d[c.note].Comment?)
    ensures Rooted(d, s) ==> Rooted(d[h := c], Renoted(s, h, d[h].note, c.note))
  {
    RenotedEntries(d, s, h, c);
    RewordedIsSmall(d[h], c);
    OwnedInside(d, s, s.root);
    hide At, Fits, Named, Renoted, Climbs, Grown;
    if Rooted(d, s) { RootedFramed(d, s, d[h := c], Renoted(s, h, d[h].note, c.note)); }
  }

  /** `c` is header `b` under another name, in another directory, with another comment. */
  predicate Refiled(b: Block, c: Block) {
    b.Header? && c.Header? && c == b.(name := c.name, parent := c.parent, chain := c.chain, comment := c.comment,
        note := c.note)
  }

  lemma RefileKeepsOrder(d: Disk, f: Format, g: Geometry, s: Shape, rank: map<Lba, int>, root: Lba, h: Lba, c: Block)
    requires Orderly(d, f, g, s, rank, root) && h in s.orphans && h < |d| && Refiled(d[h], c)
    requires c.note == d[h].note || c.note == 0 || (!s.Owns(c.note) && c.note < |d| && d[c.note].Comment?)
    requires d[h].note != 0 ==> c.chain != d[h].note
    ensures Orderly(d[h := c], f, g, Renoted(s, h, d[h].note, c.note), rank, root)
    ensures Tree(d[h := c], Renoted(s, h, d[h].note, c.note)) == Tree(d, s)
  {
    var b := d[h].(name := c.name, parent := c.parent, chain := c.chain);
    RefiledPointers(d[h], b);
    TablesStay(d, f, s, h);
    hide Orderly, Tree, At, HashTable, IsDirectory, Renoted, Rooted;
    RewriteKeepsOrder(d, f, g, s, rank, root, h, b);
    var e := d[h := b];
    OrphanIsNoEntry(d, s, h);
    RenotedKeepsOrder(e, f, g, s, rank, root, h, c);
    assert e[h := c] == d[h := c];
  }

  lemma RefiledPointers(b: Block, c: Block)
    requires b.Header? && c.Header? && c == b.(name := c.name, parent := c.parent, chain := c.chain)
    ensures forall l: Link :: !l.Chain? ==> At(c, l) == At(b, l)
    ensures (IsDirectory(b) <==> IsDirectory(c)) && (IsDirectory(b) ==> HashTable(b) == HashTable(c))
  {}

  lemma TablesStay(d: Disk, f: Format, s: Shape, h: Lba)
    requires h in s.orphans && h < |d|
    ensures forall rank :: Named(d, f, s, rank) && IsDirectory(d[h]) ==> |HashTable(d[h])| == f.slots
  {
    assert s.Owns(h);
  }

  lemma OrphanIsNoEntry(d: Disk, s: Shape, h: Lba)
    requires h in s.orphans
    ensures s.Owns(h) && (Grown(d, s) ==> !IsEntry(s, h))
  {}

  /** The text of a comment block changes in place: only its own entry says otherwise. */
  lemma RetextKeepsOrder(d: Disk, f: Format, g: Geometry, s: Shape, rank: map<Lba, int>, root: Lba, h: Lba, c: Block)
    requires Orderly(d, f, g, s, rank, root) && IsEntry(s, h) && h < |d| && d[h].Header? && d[h].note != 0 && c.Comment?
    ensures d[h].note < |d| && d[d[h].note].Comment? && d[h].note != h
    ensures Orderly(d[d[h].note := c], f, g, s, rank, root)
    ensures Tree(d[d[h].note := c], s) == Tree(d, s)[h := FactOf(d[d[h].note := c], d[h])]
    ensures Rooted(d, s) ==> Rooted(d[d[h].note := c], s)
  {
    NoteIsOwned(d, s, h);
    EntryIsHeader(d, f, s, rank, h);
    OwnedInside(d, s, s.root);
    RetextFacts(d, f, s, rank, h, c);
    RetextShape(d, f, s, rank, h, c);
    hide FactOf, Grown, Named, At, Fits, SlotIn;
    TreeSets(d, s, d[d[h].note := c], s, h);
    if Rooted(d, s) { RootedFramed(d, s, d[d[h].note := c], s); }
  }

  lemma RetextShape(d: Disk, f: Format, s: Shape, rank: map<Lba, int>, h: Lba, c: Block)
    requires Grown(d, s) && Named(d, f, s, rank) && IsEntry(s, h) && h < |d| && d[h].Header? && d[h].note != 0
              && c.Comment?
    requires d[h].note < |d| && d[d[h].note].Comment?
    ensures Grown(d[d[h].note := c], s) && Named(d[d[h].note := c], f, s, rank)
  {
    var e := d[d[h].note := c];
    CommentsAreAlike(d[d[h].note], c);
    assert forall x: Lba :: x in s.orphans ==> Recorded(d, s, x);
    RetextFacts(d, f, s, rank, h, c);
    hide At, Fits, SlotIn;
    Unmoved(d, s, e);
    forall y: Lba | IsEntry(s, y)
      ensures s.Owns(s.up[y].from)
    {
      EntryIsHeader(d, f, s, rank, y);
    }
    NamedFramed(d, f, s, rank, e, s);
  }

  lemma CommentsAreAlike(b: Block, c: Block)
    requires b.Comment? && c.Comment?
    ensures SamePointers(b, c) && SameSlots(b, c)
  {}

  lemma RetextFacts(d: Disk, f: Format, s: Shape, rank: map<Lba, int>, h: Lba, c: Block)
    requires Grown(d, s) && Named(d, f, s, rank) && IsEntry(s, h) && h < |d| && d[h].Header? && d[h].note != 0
              && c.Comment?
    requires d[h].note < |d| && d[d[h].note].Comment?
    ensures forall y: Lba :: IsEntry(s, y) ==>
              y < |d| && d[y].Header? && d[d[h].note := c][y] == d[y]
                  && (y != h ==> FactOf(d[d[h].note := c], d[y]) == FactOf(d, d[y]))
  {
    hide Grown, Named, At, Fits, FactOf, Tree;
    forall y: Lba | IsEntry(s, y)
      ensures y < |d| && d[y].Header? && d[d[h].note := c][y] == d[y]
                && (y != h ==> FactOf(d[d[h].note := c], d[y]) == FactOf(d, d[y]))
    {
      EntryIsHeader(d, f, s, rank, y);
      EntryIsHeader(d, f, s, rank, h);
      RetextFact(d, s, h, c, y);
    }
  }

  lemma RetextFact(d: Disk, s: Shape, h: Lba, c: Block, y: Lba)
    requires Grown(d, s) && s.Owns(h) && s.Owns(y) && h < |d| && d[h].Header? && d[h].note != 0 && y < |d|
              && d[y].Header?
    requires d[h].note < |d| && d[d[h].note].Comment?
    ensures d[d[h].note := c][y] == d[y] && (y != h ==> FactOf(d[d[h].note := c], d[y]) == FactOf(d, d[y]))
  {
    hide Grown, At;
    NoteIsOwned(d, s, h);
    if y != h && d[y].note != 0 { NoteIsOwned(d, s, y); }
  }
}
