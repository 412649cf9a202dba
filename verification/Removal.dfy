/**
 Deleting in two halves: `Unlink` takes a name out of its directory and gives nothing
 back, `Release` gives back the blocks of a header no directory names.
 */
module Removal {
  import opened Words
  import opened Disk
  import opened Allocation
  import opened Names
  import opened Forest
  import opened Directories
  import opened Dircache
  import opened Protocol
  import opened Reader
  import opened Steps
  import opened Mutation
  import opened Creation
  import opened Chains
  import opened Survival

  // ---- What an entry owns --------------------------------------------------------------------

  /** What header `h` owns is `own`: itself, the block of its comment, and a file's chain or a
      directory's cache. */
  ghost predicate Possesses(d: Disk, f: Format, h: Lba, own: set<Lba>)
    requires f.payload > 0
  {
    && h < |d| && d[h].Header?
    && match d[h].kind
       case File =>
           exists c: FileChain :: IsChain(d, f, c) && c.header == h && own == BlocksOfChain(c) + NoteSet(d[h].note)
       case Directory => if f.dircache then exists c :: IsCacheOf(d, h, c) && own == {h} + SetOf(c) + NoteSet(d[h].note)
                         else own == {h} + NoteSet(d[h].note)
       case _ => own == {h} + NoteSet(d[h].note)
  }

  /** One set is what a header owns. */
  lemma PossessionIsUnique(d: Disk, f: Format, h: Lba, own: set<Lba>, all: set<Lba>)
    requires f.payload > 0 && Possesses(d, f, h, own) && Possesses(d, f, h, all)
    ensures own == all
  {
    hide IsChain, Strung;
    if d[h].kind.File? {
      var a: FileChain :| IsChain(d, f, a) && a.header == h && own == BlocksOfChain(a) + NoteSet(d[h].note);
      var b: FileChain :| IsChain(d, f, b) && b.header == h && all == BlocksOfChain(b) + NoteSet(d[h].note);
      ChainIsUnique(d, f, a, b);
    } else if d[h].kind.Directory? && f.dircache {
      var a :| IsCacheOf(d, h, a) && own == {h} + SetOf(a) + NoteSet(d[h].note);
      var b :| IsCacheOf(d, h, b) && all == {h} + SetOf(b) + NoteSet(d[h].note);
      StrungIsAll(d, h, At(d[h], CacheHead), a);
    }
  }

  /** `out` is header `h`, first, and everything that belongs to it, each block once. */
  ghost predicate Estate(d: Disk, f: Format, s: Shape, h: Lba, out: seq<Lba>)
    requires f.payload > 0
  {
    && |out| > 0 && out[0] == h && NoRepeats(out) && h !in out[1..]
    && Belongings(s, h, SetOf(out[1..])) && Possesses(d, f, h, SetOf(out))
  }

  /** `n` blocks are free that were not: all that header `h` owned. */
  ghost predicate Reclaimed(d: Disk, f: Format, h: Lba, was: set<Lba>, now: set<Lba>, n: nat)
    requires f.payload > 0
  {
    exists own :: Possesses(d, f, h, own) && own !! was && now == was + own && n == |own|
  }

  /** Everything the entry owns can be found: a directory is empty and its cache reads, a
      file's chain does. */
  ghost predicate Reclaimable(d: Disk, f: Format, h: Lba)
    requires f.payload > 0
  {
    && h < |d| && d[h].Header? && EmptyTable(d[h])
    && (d[h].kind.File? ==> exists c: FileChain :: IsChain(d, f, c) && c.header == h)
    && (d[h].kind.Directory? && f.dircache ==> exists c :: IsCacheOf(d, h, c))
  }

  /** Every block an entry owns, and the refusals of a delete: a directory with anything in
      it, a file whose chain does not read. */
  method BlocksOf(m: Mutator, h: Lba) returns (r: Result<seq<Lba>, MutateError>)
    requires m.Valid() && m.shape.Owns(h) && h < |m.vol.src.blocks| && m.vol.src.blocks[h].Header?
    ensures m.vol.f.payload > 0 && (r.Ok? <==> Reclaimable(m.vol.src.blocks, m.vol.f, h))
    ensures r.Ok? ==> Estate(m.vol.src.blocks, m.vol.f, m.shape, h, r.value) && EmptyTable(m.vol.src.blocks[h])
    ensures !EmptyTable(m.vol.src.blocks[h]) ==> r == Err(DirectoryNotEmpty(h))
  {
    hide Mutator.Ready, Orderly, Mutation.Kept, Rooted, Grown, Named, IsChain, IsCacheOf;
    m.InOrderNow();
    OrderlyNow(m);
    var b := m.vol.src.blocks[h];
    var note: seq<Lba> := if b.note != 0 then [b.note] else [];
    if b.note != 0 { NoteIsOwned(m.vol.src.blocks, m.shape, h); }
    OneOfSet(b.note);
    var rest: seq<Lba> := [];
    match b.kind {
      case Directory =>
        if exists i :: 0 <= i < |b.table| && b.table[i] != 0 {
          assert !EmptyTable(b) by { assert HashTable(b) == b.table; }
          return Err(DirectoryNotEmpty(h));
        }
        var cache := m.vol.ReadDircache(h);
        match cache {
          case Err(e) => return Err(Read(e));
          case Ok(c) =>
            rest := c.0;
            CacheBelongs(m, h, c.0);
        }
      case File =>
        var chain := m.vol.ReadFileChain(h);
        match chain {
          case Err(e) => return Err(Read(e));
          case Ok(c) =>
            rest := c.extensions + c.blocks;
            ChainBelongs(m, c);
        }
      case SoftLink =>
      case LinkDir =>
      case LinkFile =>
    }
    WholeEstate(m.vol.src.blocks, m.vol.f, m.shape, h, note, rest);
    r := Ok([h] + note + rest);
  }

  /** `rest` is what a header owns beside its comment and itself. */
  ghost predicate Holdings(d: Disk, f: Format, h: Lba, rest: set<Lba>)
    requires f.payload > 0 && h < |d| && d[h].Header?
  {
    match d[h].kind
    case File => exists c: FileChain :: IsChain(d, f, c) && c.header == h && rest == SetOf(c.extensions + c.blocks)
    case Directory => if f.dircache then exists c :: IsCacheOf(d, h, c) && rest == SetOf(c) else rest == {}
    case _ => rest == {}
  }

  lemma OneOfSet(note: Lba)
    ensures SetOf(if note != 0 then [note] else []) == NoteSet(note)
  {}

  lemma HoldingsAre(d: Disk, f: Format, h: Lba, note: seq<Lba>, rest: seq<Lba>)
    requires f.payload > 0 && h < |d| && d[h].Header? && Holdings(d, f, h, SetOf(rest))
              && SetOf(note) == NoteSet(d[h].note)
    ensures Possesses(d, f, h, SetOf([h] + note + rest))
  {
    hide IsChain, IsCacheOf;
    SetOfBoth([h], note);
    SetOfBoth([h] + note, rest);
    assert SetOf([h]) == {h};
    if d[h].kind.File? {
      var c: FileChain :| IsChain(d, f, c) && c.header == h && SetOf(rest) == SetOf(c.extensions + c.blocks);
      SetOfBoth(c.extensions, c.blocks);
      assert SetOf([h] + note + rest) == BlocksOfChain(c) + NoteSet(d[h].note);
    } else if d[h].kind.Directory? && f.dircache {
      var c :| IsCacheOf(d, h, c) && SetOf(rest) == SetOf(c);
      assert SetOf([h] + note + rest) == {h} + SetOf(c) + NoteSet(d[h].note);
    }
  }

  /** The blocks of `list` hang off `h` and are not its comment. */
  ghost predicate Contents(s: Shape, h: Lba, list: seq<Lba>) {
    && NoRepeats(list) && HangsOff(s, h, SetOf(list))
    && forall y: Lba :: y in list ==> BelongsToOne(s.up[y].link) && !s.up[y].link.Note?
  }

  lemma CacheBelongs(m: Mutator, h: Lba, c: seq<Lba>)
    requires m.Valid() && m.shape.Owns(h) && h < |m.vol.src.blocks| && IsDirectory(m.vol.src.blocks[h])
    requires c == [] || IsCacheOf(m.vol.src.blocks, h, c)
    ensures Contents(m.shape, h, c)
  {
    hide Mutator.Ready, Named, Mutation.Kept, Rooted, Grown, Strung;
    if c != [] {
      CacheIsOwned(m.vol.src.blocks, m.shape, h, c);
      forall y: Lba | y in c
        ensures y in m.shape.up && BelongsToOne(m.shape.up[y].link) && !m.shape.up[y].link.Note?
      {
        var i :| 0 <= i < |c| && c[i] == y;
        assert m.shape.up[c[i]] == CacheEdge(h, c, i);
      }
    }
  }

  lemma ChainBelongs(m: Mutator, c: FileChain)
    requires m.Valid() && m.shape.Owns(c.header) && IsChain(m.vol.src.blocks, m.vol.f, c)
    ensures Contents(m.shape, c.header, c.extensions + c.blocks)
  {
    hide Mutator.Ready, Named, Mutation.Kept, Rooted, Grown, IsChain;
    m.InOrderNow();
    ChainIsOwned(m.vol.src.blocks, m.vol.f, m.shape, c);
    ChainContents(m.shape, c);
  }

  lemma ChainContents(s: Shape, c: FileChain)
    requires NoRepeats(c.blocks) && NoRepeats(c.extensions)
    requires forall y :: y in c.blocks ==> y in s.up && s.up[y].link.Datum?
    requires forall i :: 0 <= i < |c.extensions| ==>
               c.extensions[i] in s.up && s.up[c.extensions[i]] == Edge(ExtFrom(c.header, c.extensions, i), Ext)
    requires HangsOff(s, c.header, SetOf(c.blocks) + SetOf(c.extensions))
    ensures Contents(s, c.header, c.extensions + c.blocks)
  {
    var list := c.extensions + c.blocks;
    SetOfBoth(c.extensions, c.blocks);
    assert SetOf(list) == SetOf(c.blocks) + SetOf(c.extensions);
    forall y: Lba | y in c.extensions
      ensures y in s.up && s.up[y].link.Ext?
    {
      var i :| 0 <= i < |c.extensions| && c.extensions[i] == y;
      assert s.up[c.extensions[i]].link.Ext?;
    }
    forall i, j | 0 <= i < j < |list|
      ensures list[i] != list[j]
    {
      if i < |c.extensions| <= j {
        assert c.extensions[i] in c.extensions && c.blocks[j - |c.extensions|] in c.blocks;
      }
    }
  }

  lemma WholeEstate(d: Disk, f: Format, s: Shape, h: Lba, note: seq<Lba>, rest: seq<Lba>)
    requires Grown(d, s) && s.Owns(h) && h < |d| && d[h].Header? && Contents(s, h, rest) && f.payload > 0
              && Holdings(d, f, h, SetOf(rest))
    requires note == if d[h].note != 0 then [d[h].note] else []
    ensures Estate(d, f, s, h, [h] + note + rest)
  {
    OneOfSet(d[h].note);
    HoldingsAre(d, f, h, note, rest);
    BelongsTogether(d, s, h, note, rest);
    hide Grown, Holdings, Possesses, Contents, Belongings, NoRepeats, SetOf;
  }

  lemma BelongsTogether(d: Disk, s: Shape, h: Lba, note: seq<Lba>, rest: seq<Lba>)
    requires Grown(d, s) && s.Owns(h) && h < |d| && d[h].Header? && Contents(s, h, rest)
    requires note == if d[h].note != 0 then [d[h].note] else []
    ensures var out := [h] + note + rest;
            |out| > 0 && out[0] == h && NoRepeats(out) && h !in out[1..] && Belongings(s, h, SetOf(out[1..]))
  {
    hide Grown;
    if d[h].note != 0 { NoteIsOwned(d, s, h); }
    HeaderApart(d, s, h);
    var out := [h] + note + rest;
    assert out[1..] == note + rest && out == [h] + (note + rest);
    SetOfBoth(note, rest);
    EstateOnce(s, h, note, rest);
    hide NoRepeats;
  }

  lemma EstateOnce(s: Shape, h: Lba, note: seq<Lba>, rest: seq<Lba>)
    requires NoRepeats(rest) && |note| <= 1 && (forall y: Lba :: y in rest ==>
              y in s.up && !s.up[y].link.Note? && BelongsToOne(s.up[y].link))
    requires forall y: Lba :: y in note ==> y in s.up && s.up[y].link.Note?
    requires h in s.up ==> !BelongsToOne(s.up[h].link)
    ensures NoRepeats([h] + (note + rest)) && h !in note + rest
  {
    Apart(note, rest);
    Apart([h], note + rest);
  }

  /** A header is nobody's content, cache or comment. */
  lemma HeaderApart(d: Disk, s: Shape, h: Lba)
    requires Grown(d, s) && h < |d| && d[h].Header?
    ensures h in s.up ==> !BelongsToOne(s.up[h].link)
  {
    if h in s.up { assert Fits(d[h], s.up[h].link); }
  }

  /** Of what header `h` owns nothing was written, but for the link it keeps to the next of the
      hard links to one object. */
  ghost predicate EstateKept(d: Disk, s: Shape, h: Lba, e: Disk) {
    && h < |d| == |e| && d[h].Header? && e[h].Header? && e[h] == LinkedOn(d[h], e[h].nextLink)
    && forall x: Lba :: s.Owns(x) && x < |d| && OfCache(d[x], h) ==> e[x] == d[x]
  }

  lemma EstateKeptOn(d: Disk, s: Shape, h: Lba, e: Disk, t: Shape, e2: Disk)
    requires EstateKept(d, s, h, e) && EstateKept(e, t, h, e2) && forall x: Lba :: s.Owns(x) ==> t.Owns(x)
    ensures EstateKept(d, s, h, e2)
  {}

  /** What it owned then it owns still. */
  lemma PossessionStays(d: Disk, f: Format, s: Shape, h: Lba, e: Disk, own: set<Lba>)
    requires f.payload > 0 && Grown(d, s) && s.Owns(h) && Possesses(d, f, h, own) && EstateKept(d, s, h, e)
              && Spares(d, e, s, {})
    ensures Possesses(e, f, h, own)
  {
    hide Grown, Walks, CeilDiv, IsCacheOf;
    if d[h].kind.File? {
      var c: FileChain :| IsChain(d, f, c) && c.header == h && own == BlocksOfChain(c) + NoteSet(d[h].note);
      ChainKept(d, f, s, e, c);
    } else if d[h].kind.Directory? && f.dircache {
      var c :| IsCacheOf(d, h, c) && own == {h} + SetOf(c) + NoteSet(d[h].note);
      CacheKept(d, s, h, e, c);
    }
  }

  lemma ChainKept(d: Disk, f: Format, s: Shape, e: Disk, c: FileChain)
    requires f.payload > 0 && Grown(d, s) && s.Owns(c.header) && IsChain(d, f, c) && Spares(d, e, s, {})
    ensures IsChain(e, f, c)
  {
    ChainIsOwned(d, f, s, c);
    WalkIsLists(d, f.slots, c.header, d[c.header].ext, c.extensions, c.blocks[|d[c.header].table|..], 0);
    hide Grown, Walks, CeilDiv, HangsOff;
    forall x: Lba | x in c.extensions && x < |d|
      ensures e[x] == d[x]
    {
      var i :| 0 <= i < |c.extensions| && c.extensions[i] == x;
      assert s.Owns(c.extensions[i]);
    }
    ChainFramed(d, f, c, e);
  }

  lemma CacheKept(d: Disk, s: Shape, h: Lba, e: Disk, c: seq<Lba>)
    requires Grown(d, s) && s.Owns(h) && IsCacheOf(d, h, c) && EstateKept(d, s, h, e) && IsDirectory(d[h])
    ensures IsCacheOf(e, h, c)
  {
    CacheIsOwned(d, s, h, c);
    hide Grown, HangsOff;
    forall i | 0 <= i < |c|
      ensures CacheStep(e, h, c[i], NextIn(c, i, 0))
    {
      assert CacheStep(d, h, c[i], NextIn(c, i, 0)) && s.Owns(c[i]);
    }
  }

  /** Everything it owned can still be found. */
  lemma StillReclaimable(d: Disk, f: Format, s: Shape, h: Lba, e: Disk)
    requires f.payload > 0 && Grown(d, s) && s.Owns(h) && Reclaimable(d, f, h) && EstateKept(d, s, h, e)
              && Spares(d, e, s, {})
    ensures Reclaimable(e, f, h)
  {
    hide Grown, IsChain, IsCacheOf;
    SameTable(d[h], e[h].nextLink);
    if d[h].kind.File? {
      var c: FileChain :| IsChain(d, f, c) && c.header == h;
      ChainKept(d, f, s, e, c);
    } else if d[h].kind.Directory? && f.dircache {
      var c :| IsCacheOf(d, h, c);
      CacheKept(d, s, h, e, c);
    }
  }

  lemma SameTable(b: Block, next: Lba)
    requires b.Header?
    ensures EmptyTable(LinkedOn(b, next)) <==> EmptyTable(b)
  {
    assert IsDirectory(b) ==> HashTable(LinkedOn(b, next)) == HashTable(b);
  }

  /** It owns something. */
  lemma SomethingPossessed(d: Disk, f: Format, h: Lba) returns (own: set<Lba>)
    requires f.payload > 0 && Reclaimable(d, f, h)
    ensures Possesses(d, f, h, own)
  {
    hide IsChain, IsCacheOf;
    own := {h} + NoteSet(d[h].note);
    if d[h].kind.File? {
      var c: FileChain :| IsChain(d, f, c) && c.header == h;
      own := BlocksOfChain(c) + NoteSet(d[h].note);
    } else if d[h].kind.Directory? && f.dircache {
      var c :| IsCacheOf(d, h, c);
      own := {h} + SetOf(c) + NoteSet(d[h].note);
    }
  }

  // ---- Taking a name out ---------------------------------------------------------------------

  /** Following the chain of hard links from header to header, `path` comes to the one that
      names `entry` next, and had not met `entry` before. */
  ghost predicate LinkPath(d: Disk, entry: Lba, path: seq<Lba>) {
    && 0 < |path| <= |d| + 1 && entry != 0
    && (forall i :: 0 <= i < |path| ==> path[i] < |d| && d[path[i]].Header?)
    && (forall i :: 0 <= i < |path| - 1 ==> LinksOn(d, entry, path, i))
    && d[path[|path| - 1]].nextLink == entry
  }

  ghost predicate LinksOn(d: Disk, entry: Lba, path: seq<Lba>, i: nat)
    requires i + 1 < |path| && path[i] < |d| && d[path[i]].Header?
  {
    path[i + 1] == d[path[i]].nextLink && path[i + 1] != 0 && path[i + 1] != entry
  }

  /** The hard link `h` is where its target's chain of links says. */
  ghost predicate InLinkChain(d: Disk, h: Lba)
    requires h < |d| && d[h].Header?
  {
    d[h].realEntry != 0 && exists path :: LinkPath(d, h, path) && path[0] == d[h].realEntry
  }

  /** Which of the headers that name one object comes before `entry` in the chain of its
      hard links, `target` being the first. */
  method LocateLinkPredecessor(m: Mutator, target: Lba, entry: Lba) returns (r: Result<Lba, MutateError>)
    requires entry != 0
    ensures r.Ok? <==> exists path :: LinkPath(m.vol.src.blocks, entry, path) && path[0] == target
    ensures r.Ok? ==>
              r.value < |m.vol.src.blocks| && m.vol.src.blocks[r.value].Header?
              && m.vol.src.blocks[r.value].nextLink == entry
  {
    ghost var d := m.vol.src.blocks;
    var prev := target;
    var steps := 0;
    ghost var path: seq<Lba> := [target];
    while true
      invariant 0 <= steps <= |m.vol.src.blocks| && |path| == steps + 1 && path[0] == target && path[steps] == prev
      invariant forall i :: 0 <= i < steps ==> path[i] < |d| && d[path[i]].Header? && LinksOn(d, entry, path, i)
      invariant forall p :: LinkPath(d, entry, p) && p[0] == target ==> steps < |p| && p[steps] == prev
      decreases |m.vol.src.blocks| - steps
    {
      var b := m.vol.EntryAt(prev);
      if b.Err? {
        return Err(Read(b.error));
      }
      var next := b.value.nextLink;
      OneLinkOn(d, target, entry, steps, prev);
      if next == 0 {
        return Err(NotInLinkChain(entry));
      }
      if next == entry {
        assert LinkPath(d, entry, path);
        return Ok(prev);
      }
      steps := steps + 1;
      if steps > |m.vol.src.blocks| {
        return Err(Read(ChainTooLong(next)));
      }
      prev := next;
      path := MoreLinks(d, entry, path, next);
    }
    r := Err(NotInLinkChain(entry));
  }

  /** Every way to `entry` that has not come to it goes on where the chain does. */
  lemma OneLinkOn(d: Disk, target: Lba, entry: Lba, steps: nat, prev: Lba)
    requires prev < |d| && d[prev].Header? && entry != 0
    requires forall p :: LinkPath(d, entry, p) && p[0] == target ==> steps < |p| && p[steps] == prev
    ensures forall p :: LinkPath(d, entry, p) && p[0] == target && d[prev].nextLink != entry ==>
              steps + 1 < |p| && p[steps + 1] == d[prev].nextLink != 0
  {
    forall p | LinkPath(d, entry, p) && p[0] == target && d[prev].nextLink != entry
      ensures steps + 1 < |p| && p[steps + 1] == d[prev].nextLink != 0
    {
      assert LinksOn(d, entry, p, steps);
    }
  }

  lemma MoreLinks(d: Disk, entry: Lba, path: seq<Lba>, next: Lba) returns (more: seq<Lba>)
    requires |path| > 0 && forall i :: 0 <= i < |path| ==> path[i] < |d| && d[path[i]].Header?
    requires forall i :: 0 <= i < |path| - 1 ==> LinksOn(d, entry, path, i)
    requires next == d[path[|path| - 1]].nextLink && next != 0 && next != entry
    ensures more == path + [next] && forall i :: 0 <= i < |path| ==> LinksOn(d, entry, more, i)
  {
    more := path + [next];
    forall i | 0 <= i < |path|
      ensures LinksOn(d, entry, more, i)
    {
      if i < |path| - 1 { assert LinksOn(d, entry, path, i); }
    }
  }

  /** Splice a hard link out of the chain of links that name its target. */
  method UnlinkFromLinkChain(m: Mutator, h: Lba) returns (r: Result<(), MutateError>)
    requires m.Valid() && 0 < h < |m.vol.src.blocks| && m.vol.src.blocks[h].Header?
    requires m.live == m.shape.Members() && m.origin == m.shape
    modifies m.vol.src
    ensures m.Valid() && m.Entries() == old(m.Entries()) && |m.vol.src.blocks| == |old(m.vol.src.blocks)|
    ensures r.Ok? <==> InLinkChain(old(m.vol.src.blocks), h)
    ensures Carries(old(m.vol.src.blocks), m.shape, m.vol.src.blocks, m.shape)
              && EstateKept(old(m.vol.src.blocks), m.shape, h, m.vol.src.blocks)
  {
    hide Mutator.Ready, Orderly, Mutation.Kept, Rooted, Carries, LinkPath;
    CarriesItself(m.vol.src.blocks, m.shape);
    var target := m.vol.src.blocks[h].realEntry;
    if target == 0 {
      return Err(Read(NotHeader(h)));
    }
    var prev := LocateLinkPredecessor(m, target, h);
    if prev.Err? {
      return Err(prev.error);
    }
    m.SetNextLink(prev.value, m.vol.src.blocks[h].nextLink);
    r := Ok(());
  }

  /** Splice an entry out of the hash chain it is in: the directory's slot when it is the
      head, the entry before it otherwise. */
  method SpliceFromHashChain(m: Mutator, dir: Lba, h: Lba)
          returns (r: Result<(), MutateError>, ghost x: Lba, ghost l: Link)
    requires m.Valid() && IsFolder(m.vol.src.blocks, m.shape, dir) && EntryOf(m.vol.src.blocks, m.shape, dir, h)
    modifies m`shape, m`rank, m`views, m.vol.src
    ensures m.rank == old(m.rank) && m.views == old(m.views) + {m.Entries()}
    ensures r.Ok? && m.Steady() && (Childless(old(m.Entries()), h) ==> m.Valid())
    ensures m.Entries() == old(m.Entries()) - {h} && Carries(old(m.vol.src.blocks), old(m.shape), m.vol.src.blocks,
              m.shape)
    ensures CutAt(old(m.vol.src.blocks), old(m.shape), h, x, l)
    ensures forall y :: old(m.Mine(y)) ==> m.Mine(y)
    ensures |m.vol.src.blocks| == |old(m.vol.src.blocks)|
    ensures m.vol.src.blocks == old(m.vol.src.blocks)[x :=
              WithLink(old(m.vol.src.blocks)[x], l, old(m.vol.src.blocks)[h].chain)]
    ensures m.vol.src.trail == old(m.vol.src.trail) + [m.vol.src.blocks]
    ensures m.shape == Spliced(old(m.shape), h, old(m.vol.src.blocks)[h].chain)
  {
    hide Mutator.Ready, Orderly, Mutation.Kept, Rooted, Carries, FreeOnDisk, IsFolder, Spliced, WithLink, At, Grown,
      Named, Tree, Childless, Mutator.Mine;
    m.InOrderNow();
    m.FolderFacts(dir);
    SlotBound(m.vol.f, m.vol.src.blocks[h].name);
    var slot := SlotIn(m.vol.f, m.vol.src.blocks[h].name);
    EntryInSlot(m, dir, h);
    var prev := m.vol.LocateInHashChain(dir, slot, h, m.shape, m.rank);
    match prev {
      case Err(e) => r := Err(Read(e));
      case Ok(None) => r := Err(NotInChain(h));
      case Ok(Some(p)) =>
        var at, link := if p == 0 then dir else p, if p == 0 then Slot(slot) else Chain;
        x, l := at, link;
        NamedThere(m, dir, h, x, l);
        m.RemoveName(at, link, h);
        r := Ok(());
    }
  }

  /** The one pointer to entry `h` is pointer `l` of block `x`. */
  ghost predicate CutAt(d: Disk, s: Shape, h: Lba, x: Lba, l: Link) {
    && h in s.up && s.up[h] == Edge(x, l) && (l.Slot? || l.Chain?) && x in s.Members() && x < |d| && h < |d| && x != h
        && d[h].Header?
    && At(d[x], l) == h && (l.Slot? ==> IsDirectory(d[x]) && l.i < |HashTable(d[x])|) && (l.Chain? ==> d[x].Header?)
  }

  lemma SplicedOrphans(s: Shape, h: Lba, next: Lba)
    requires h in s.up
    ensures Spliced(s, h, next).orphans == s.orphans + {h} && Spliced(s, h, next).root == s.root
  {}

  lemma EntryInSlot(m: Mutator, dir: Lba, h: Lba)
    requires m.Steady() && EntryOf(m.vol.src.blocks, m.shape, dir, h)
    ensures InSlot(m.vol.src.blocks, m.vol.f, m.shape, m.rank, dir, SlotIn(m.vol.f, m.vol.src.blocks[h].name), h)
              && h != 0
  {
    hide Mutator.Ready, Mutation.Kept, Grown, Rooted, SlotIn;
    m.InOrderNow();
    RankedEntries(m.vol.src.blocks, m.vol.f, m.shape, m.rank, dir, SlotIn(m.vol.f, m.vol.src.blocks[h].name), h);
  }

  lemma NamedThere(m: Mutator, dir: Lba, h: Lba, x: Lba, l: Link)
    requires m.Valid() && EntryOf(m.vol.src.blocks, m.shape, dir, h) && m.shape.up[h] == Edge(x, l)
              && (l.Slot? ==> x == dir)
    requires IsFolder(m.vol.src.blocks, m.shape, dir)
    ensures x in m.shape.Members() && x < |m.vol.src.blocks| && At(m.vol.src.blocks[x], l) == h != x
    ensures l.Slot? ==> IsDirectory(m.vol.src.blocks[x]) && l.i < |HashTable(m.vol.src.blocks[x])|
    ensures l.Chain? ==> m.vol.src.blocks[x].Header?
  {
    hide Mutator.Ready, Mutation.Kept, Climbs, SlotIn;
    assert Placed(m.vol.src.blocks, m.vol.f, m.shape, m.rank, h);
    NotItsOwnEntry(m.vol.src.blocks, m.shape, dir);
  }

  /** A directory with an empty table has no entries, and nothing else has any. */
  lemma EmptyIsChildless(m: Mutator, h: Lba)
    requires m.Valid() && h < |m.vol.src.blocks| && m.vol.src.blocks[h].Header? && EmptyTable(m.vol.src.blocks[h])
    ensures Childless(m.Entries(), h)
  {
    m.InOrderNow();
    hide Mutator.Ready, Mutation.Kept, InOrder, EmptyTable, Climbs;
    var d, s := m.vol.src.blocks, m.shape;
    forall y | y in m.Entries()
      ensures m.Entries()[y].dir != h
    {
      if d[y].parent == h {
        ParentIsDirectory(d, s, y);
        NoEntriesThere(d, m.vol.f, s, m.rank, h, y);
      }
    }
  }

  lemma NoEntriesThere(d: Disk, f: Format, s: Shape, rank: map<Lba, int>, h: Lba, y: Lba)
    requires InOrder(d, f, s, rank) && h < |d| && IsDirectory(d[h]) && EmptyTable(d[h])
    ensures !EntryOf(d, s, h, y)
  {
    if EntryOf(d, s, h, y) {
      var i := SlotIn(f, d[y].name);
      EmptyNamesNothing(d[h], Slot(i));
      assert WalkedOut(d, h, i, {});
      RankedEntries(d, f, s, rank, h, i, y);
      SlotWalkMeets(d, f, s, rank, h, i, {}, y);
      assert false;
    }
  }

  /** What an unlink needs: the name is there, and everything its entry owns can be found. */
  ghost predicate MayUnlink(f: Format, d: Disk, s: Shape, dir: Lba, name: Bytes)
    requires f.payload > 0
  {
    |name| <= MaxName(f) &&
        exists h :: Filed(Tree(d, s), f.intl, dir, name, h) && Reclaimable(d, f, h) && LinksAllow(d, h)
  }

  /** Remove `name` from `dir` without freeing anything it owns; what is returned is the
      handle `Release` takes. */
  method Unlink(m: Mutator, dir: Lba, name: Bytes) returns (r: Result<Lba, MutateError>)
    requires m.Valid() && m.Handle(dir)
    modifies m, m.vol.src, m.alloc
    ensures m.Valid() && m.BeganWith(old(m.vol.src.blocks), old(m.shape), old(m.vol.src.trail), {})
    ensures m.views <= {old(m.Entries()), m.Entries()}
    ensures r.Ok? ==>
              Filed(old(m.Entries()), m.vol.f.intl, dir, name, r.value) && m.Entries() == old(m.Entries()) - {r.value}
    ensures r.Ok? ==> r.value in m.shape.orphans && m.shape.orphans == old(m.shape).orphans + {r.value}
    ensures r.Err? && m.Entries() != old(m.Entries()) ==>
              m.vol.f.dircache &&
                  exists h :: Filed(old(m.Entries()), m.vol.f.intl, dir, name, h)
                        && m.Entries() == old(m.Entries()) - {h}
    ensures forall h ::
              Filed(old(m.Entries()), m.vol.f.intl, dir, name, h) && !Childless(old(m.Entries()), h)
              && |name| <= MaxName(m.vol.f) ==>
              r == Err(DirectoryNotEmpty(h))
    ensures m.vol.f.payload > 0 && (!m.vol.f.dircache ==>
              (r.Ok? <==> old(MayUnlink(m.vol.f, m.vol.src.blocks, m.shape, dir, name))))
    ensures OthersRead(old(m.vol.src.blocks), m.vol.f, old(m.shape), 0, m.vol.src.trail, |old(m.vol.src.trail)|)
    ensures StillThere(old(m.vol.src.blocks), m.vol.f, old(m.shape), 0, m.vol.src.blocks, m.shape)
    ensures r.Ok? && m.vol.f.dircache ==> Mirrors(m.vol.src.blocks, m.vol.f, m.shape, dir)
    ensures Carries(old(m.vol.src.blocks), old(m.shape), m.vol.src.blocks, m.shape)
    ensures !m.vol.f.dircache ==> m.alloc.Free() == old(m.alloc.Free())
    ensures r.Ok? ==> Reclaimable(old(m.vol.src.blocks), m.vol.f, r.value) && old(m.shape).Owns(r.value)
    ensures r.Ok? ==> EstateKept(old(m.vol.src.blocks), old(m.shape), r.value, m.vol.src.blocks)
    ensures r.Ok? ==>
              IsFolder(m.vol.src.blocks, m.shape, dir) && r.value < |m.vol.src.blocks|
                  && m.vol.src.blocks[r.value].Header?
              && m.vol.src.blocks[r.value].parent == dir
  {
    hide Mutator.Ready, Orderly, Mutation.Kept, Rooted, Tree, Mirrors, Grown, Named, Carries, IsFolder, SameName,
      Childless, EmptyTable,
      Estate, Spliced, WithLink, CutAt, Reclaimable, LinksAllow, OthersRead, StillThere;
    OrderlyNow(m);
    m.Begin({});
    ghost var d, s, rank, writes, tree := m.vol.src.blocks, m.shape, m.rank, m.vol.src.trail, m.Entries();
    BeganHere(m, {});
    CarriesItself(d, s);
    NothingYet(d, m.vol.f, s, 0, writes);
    MatchesInTree(d, m.vol.f, s, dir, name);
    var entry := m.ExpectEntry(dir, name);
    if entry.Err? {
      NobodyFiled(m, dir, name);
      return Err(entry.error);
    }
    var h := entry.value;
    EntryBlock(m, h);
    OnlyOneFiled(m, dir, name, h);
    var blocks := BlocksOf(m, h);
    if EmptyTable(m.vol.src.blocks[h]) { EmptyIsChildless(m, h); } else { TableIsNotChildless(m, h); }
    if blocks.Err? {
      return Err(blocks.error);
    }
    var unlinked := UnlinkOne(m, dir, h);
    OthersSoFar(m, d, s, rank, writes, 0);
    r := if unlinked.Err? then Err(unlinked.error) else Ok(h);
  }

  /** Nothing is filed where no directory is, and nothing under a name nobody has. */
  lemma NobodyFiled(m: Mutator, dir: Lba, name: Bytes)
    requires m.Valid()
    ensures Absent(m.Entries(), m.vol.f.intl, dir, name) || !IsFolder(m.vol.src.blocks, m.shape, dir) ==>
              forall h :: !Filed(m.Entries(), m.vol.f.intl, dir, name, h)
  {
    hide Mutator.Ready, Mutation.Kept, SameName, Named, Climbs;
    forall h | Filed(m.Entries(), m.vol.f.intl, dir, name, h)
      ensures IsFolder(m.vol.src.blocks, m.shape, dir) && !Absent(m.Entries(), m.vol.f.intl, dir, name)
    {
      ParentIsDirectory(m.vol.src.blocks, m.shape, h);
    }
  }

  lemma OnlyOneFiled(m: Mutator, dir: Lba, name: Bytes, h: Lba)
    requires m.Steady() && Filed(m.Entries(), m.vol.f.intl, dir, name, h)
    ensures forall k :: Filed(m.Entries(), m.vol.f.intl, dir, name, k) ==> k == h
  {
    hide Mutator.Ready, Mutation.Kept, SameName, Grown, Filed;
    forall k | Filed(m.Entries(), m.vol.f.intl, dir, name, k)
      ensures k == h
    {
      SameFiled(m.vol.src.blocks, m.vol.f, m.shape, m.rank, dir, name, h, k);
    }
  }

  lemma SameFiled(d: Disk, f: Format, s: Shape, rank: map<Lba, int>, dir: Lba, name: Bytes, h: Lba, k: Lba)
    requires Named(d, f, s, rank)
    requires Filed(Tree(d, s), f.intl, dir, name, h) && Filed(Tree(d, s), f.intl, dir, name, k)
    ensures h == k
  {
    hide SameName;
    NamesMeet(d[k].name, d[h].name, name, f.intl);
    assert Distinguished(d, f, s, k, h);
  }

  lemma NamesMeet(a: Bytes, b: Bytes, c: Bytes, intl: bool)
    requires SameName(a, c, intl) && SameName(b, c, intl)
    ensures SameName(a, b, intl)
  {}

  /** Something in a directory's table is an entry of the directory. */
  lemma TableIsNotChildless(m: Mutator, h: Lba)
    requires m.Steady() && h in m.Entries() && h < |m.vol.src.blocks| && m.vol.src.blocks[h].Header?
              && !EmptyTable(m.vol.src.blocks[h])
    ensures !Childless(m.Entries(), h)
  {
    m.InOrderNow();
    hide Mutator.Ready, Mutation.Kept, InOrder, Grown;
    var d := m.vol.src.blocks;
    var i :| 0 <= i < |HashTable(d[h])| && HashTable(d[h])[i] != 0;
    HeadIsEntry(d, m.vol.f, m.shape, m.rank, h, i);
    assert At(d[h], Slot(i)) in m.Entries();
  }

  /** A hard link can leave its chain of links; nothing else has links to it. */
  ghost predicate LinksAllow(d: Disk, h: Lba) {
    h < |d| && d[h].Header? && if IsLink(d[h]) then InLinkChain(d, h) else d[h].nextLink == 0
  }

  lemma ZeroIsNobody(m: Mutator, h: Lba)
    requires m.Valid()
    ensures h in m.shape.orphans || h in m.Entries() ==> h != 0
  {
    hide Mutator.Ready, Named;
    if h in m.shape.orphans || h in m.Entries() { OwnedInside(m.vol.src.blocks, m.shape, h); }
  }

  /** The writes of an unlink: out of the chain of hard links, out of the directory, then
      the advisory records. */
  method UnlinkOne(m: Mutator, dir: Lba, h: Lba) returns (r: Result<(), MutateError>)
    requires m.Valid() && IsFolder(m.vol.src.blocks, m.shape, dir) && EntryOf(m.vol.src.blocks, m.shape, dir, h)
    requires Childless(m.Entries(), h) && m.live == m.shape.Members() && m.origin == m.shape
    modifies m`live, m`shape, m`rank, m`views, m.vol.src, m.alloc
    ensures m.Valid() && m.views <= old(m.views) + {m.Entries()}
    ensures r.Ok? ==> m.Entries() == old(m.Entries()) - {h} && m.shape.orphans == old(m.shape).orphans + {h}
    ensures r.Err? && m.Entries() != old(m.Entries()) ==> m.vol.f.dircache && m.Entries() == old(m.Entries()) - {h}
    ensures !m.vol.f.dircache ==> (r.Ok? <==> old(LinksAllow(m.vol.src.blocks, h)))
    ensures !m.vol.f.dircache ==> m.alloc.Free() == old(m.alloc.Free())
    ensures r.Ok? && m.vol.f.dircache ==> Mirrors(m.vol.src.blocks, m.vol.f, m.shape, dir)
    ensures Carries(old(m.vol.src.blocks), old(m.shape), m.vol.src.blocks, m.shape)
    ensures r.Ok? ==>
              EstateKept(old(m.vol.src.blocks), old(m.shape), h, m.vol.src.blocks)
              && IsFolder(m.vol.src.blocks, m.shape, dir)
  {
    hide Mutator.Ready, Orderly, Mutation.Kept, Rooted, Tree, Mirrors, Grown, Named, Carries, IsFolder, Childless,
      Spliced, WithLink, CutAt, EstateKept;
    ghost var d, s := m.vol.src.blocks, m.shape;
    m.RootFacts();
    CarriesItself(d, s);
    InTree(d, s, dir, h);
    ZeroIsNobody(m, h);
    var b := m.vol.src.blocks[h];
    EstateAtFirst(d, s, h);
    if IsLink(b) {
      var u := UnlinkFromLinkChain(m, h);
      if u.Err? {
        return u;
      }
    } else if b.nextLink != 0 {
      return Err(LinkedTo(h, b.nextLink));
    }
    ghost var e := m.vol.src.blocks;
    StillEntry(m, d, dir, h);
    m.RootFacts();
    ghost var x, l;
    r, x, l := SpliceFromHashChain(m, dir, h);
    CarriesOn(d, s, e, s, m.vol.src.blocks, m.shape);
    if r.Err? {
      return r;
    }
    SplicedOrphans(s, h, e[h].chain);
    FolderUnlinked(m, e, s, dir, h);
    EstateCutOut(d, s, h, e, x, l);
    OrphanIsNoFolder(m, h, dir);
    e := m.vol.src.blocks;
    ghost var t := m.shape;
    r := Advise(m, dir, h);
    CarriesOn(d, s, e, t, m.vol.src.blocks, m.shape);
    EstateKeptOn(d, s, h, e, t, m.vol.src.blocks);
  }

  lemma EstateAtFirst(d: Disk, s: Shape, h: Lba)
    requires h < |d| && d[h].Header?
    ensures EstateKept(d, s, h, d)
  {}

  /** Cutting an entry out of its chain writes nothing it owns. */
  lemma EstateCutOut(d: Disk, s: Shape, h: Lba, e: Disk, x: Lba, l: Link)
    requires EstateKept(d, s, h, e) && CutAt(e, s, h, x, l)
    ensures EstateKept(d, s, h, e[x := WithLink(e[x], l, e[h].chain)])
    ensures forall y: Lba :: s.Owns(y) ==> Spliced(s, h, e[h].chain).Owns(y)
  {}

  lemma OrphanIsNoFolder(m: Mutator, h: Lba, dir: Lba)
    requires m.Valid() && h in m.shape.orphans && IsFolder(m.vol.src.blocks, m.shape, dir)
    ensures h != dir && h < |m.vol.src.blocks| && m.vol.src.blocks[h].Header? && h != m.vol.root
  {
    hide Mutator.Ready, Named, Mutation.Kept;
    OwnedInside(m.vol.src.blocks, m.shape, h);
  }

  /** The records that follow a change of what a directory holds: its cache and its date.
      They write nothing header `h` owns. */
  method Advise(m: Mutator, dir: Lba, ghost h: Lba) returns (r: Result<(), MutateError>)
    requires m.Valid() && IsFolder(m.vol.src.blocks, m.shape, dir)
    requires h < |m.vol.src.blocks| && m.vol.src.blocks[h].Header? && m.shape.Owns(h) && h != dir && h != m.vol.root
    modifies m`live, m`shape, m.vol.src, m.alloc
    ensures m.Valid() && m.Entries() == old(m.Entries()) && m.shape.orphans == old(m.shape).orphans
    ensures IsFolder(m.vol.src.blocks, m.shape, dir)
    ensures forall x :: old(m.Spent(x)) ==> m.Spent(x)
    ensures r.Err? ==> m.vol.f.dircache
    ensures r.Ok? && m.vol.f.dircache ==> Mirrors(m.vol.src.blocks, m.vol.f, m.shape, dir)
    ensures Carries(old(m.vol.src.blocks), old(m.shape), m.vol.src.blocks, m.shape)
    ensures !m.vol.f.dircache ==> m.alloc.Free() == old(m.alloc.Free())
    ensures EstateKept(old(m.vol.src.blocks), old(m.shape), h, m.vol.src.blocks)
  {
    hide Mutator.Ready, Orderly, Mutation.Kept, Rooted, Tree, Mirrors, Grown, Named, Carries, IsFolder, EstateKept,
      OnlyCacheOf, OnlyDated;
    hide Mutator.Spent;
    ghost var d, s := m.vol.src.blocks, m.shape;
    m.RootFacts();
    FolderIsDirectory(d, s, dir);
    r := m.RefreshDircache(dir);
    ghost var e := m.vol.src.blocks;
    m.RootFacts();
    Mutator.FolderStays(d, s, e, m.shape, dir);
    FolderIsDirectory(e, m.shape, dir);
    RefreshKeepsEstate(d, s, h, dir, e, m.shape);
    if r.Ok? {
      m.Touch(dir);
      CarriesOn(d, s, e, m.shape, m.vol.src.blocks, m.shape);
      DatesKeepEstate(d, s, h, e, m.shape, dir, m.vol.src.blocks);
    }
  }

  lemma RefreshKeepsEstate(d: Disk, s: Shape, h: Lba, dir: Lba, e: Disk, t: Shape)
    requires h < |d| && d[h].Header? && s.Owns(h) && h != dir && dir < |d| && IsDirectory(d[dir])
              && OnlyCacheOf(d, s, dir, e, t)
    ensures EstateKept(d, s, h, e) && t.Owns(h) && forall x: Lba :: s.Owns(x) && x < |d| && OfCache(d[x], h) ==>
              t.Owns(x)
  {}

  lemma DatesKeepEstate(d: Disk, s: Shape, h: Lba, e: Disk, t: Shape, dir: Lba, e2: Disk)
    requires EstateKept(d, s, h, e) && h != dir && dir < |e| && IsDirectory(e[dir]) && t.root < |e| && e[t.root].Root?
              && h != t.root
    requires |e2| == |e| && forall x: Lba :: x < |e2| && x != dir && x != t.root ==> e2[x] == e[x]
    ensures EstateKept(d, s, h, e2)
  {}

  lemma StillEntry(m: Mutator, d: Disk, dir: Lba, h: Lba)
    requires m.Valid() && Grown(d, m.shape) && Tree(d, m.shape) == m.Entries() && |d| == |m.vol.src.blocks|
    requires IsFolder(d, m.shape, dir) && EntryOf(d, m.shape, dir, h)
    ensures IsFolder(m.vol.src.blocks, m.shape, dir) && EntryOf(m.vol.src.blocks, m.shape, dir, h)
  {
    m.StillFolder(d, dir);
    InTree(d, m.shape, dir, h);
    InTree(m.vol.src.blocks, m.shape, dir, h);
  }

  /** The directory an entry is taken out of is still there. */
  lemma FolderUnlinked(m: Mutator, e: Disk, s: Shape, dir: Lba, h: Lba)
    requires m.Valid() && Grown(e, s) && IsFolder(e, s, dir) && EntryOf(e, s, dir, h) && s.root == m.shape.root
    requires m.Entries() == Tree(e, s) - {h} && Childless(Tree(e, s), h)
    ensures IsFolder(m.vol.src.blocks, m.shape, dir)
  {
    hide Mutator.Ready, Mutation.Kept, Rooted, Named;
    InTree(e, s, dir, h);
    FolderPersists(e, s, m.vol.src.blocks, m.shape, dir);
  }

  // ---- Giving the blocks back ------------------------------------------------------------------

  /** A block number for `Release`: what `Unlink` returned, or something it must refuse. */
  ghost predicate Releasable(m: Mutator, h: Lba)
    reads m`shape, m.vol.src
  {
    h in m.shape.orphans || h in m.Entries() || h == m.vol.root
        || !(h < |m.vol.src.blocks| && m.vol.src.blocks[h].Header?)
  }

  /** The chain its name belongs in, in the directory it names as its parent, can be walked
      and does not come to header `h`. */
  ghost predicate Forgotten(d: Disk, f: Format, h: Lba) {
    h < |d| && d[h].Header? && Misses(d, d[h].parent, SlotIn(f, d[h].name), h)
  }

  /** A header `Release` takes: no directory names it, the chain it would be in says so, and
      everything it owns can be found. */
  ghost predicate Ripe(m: Mutator, h: Lba)
    requires m.vol.f.payload > 0
    reads m`shape, m.vol.src
  {
    h in m.shape.orphans && Reclaimable(m.vol.src.blocks, m.vol.f, h) && Forgotten(m.vol.src.blocks, m.vol.f, h)
  }

  /** The writes that give a header back, and everything it owns. */
  method Surrender(m: Mutator, h: Lba, out: seq<Lba>)
    requires m.Valid() && h in m.shape.orphans && h < |m.vol.src.blocks| && m.vol.src.blocks[h].Header?
    requires m.vol.f.payload > 0 && Estate(m.vol.src.blocks, m.vol.f, m.shape, h, out)
              && EmptyTable(m.vol.src.blocks[h]) && SetOf(out) <= m.busy
    modifies m`live, m`shape, m.vol.src, m.alloc
    ensures m.Valid() && m.Entries() == old(m.Entries())
    ensures |out| > 0 && m.shape == Shape(old(m.shape).root, old(m.shape).up - SetOf(out[1..]),
              old(m.shape).orphans - {h})
    ensures m.alloc.Free() == old(m.alloc.Free()) + SetOf(out)
    ensures Carries(old(m.vol.src.blocks), m.shape, m.vol.src.blocks, m.shape)
  {
    hide Mutator.Ready, Orderly, Mutation.Kept, Rooted, Tree, Grown, Named, Carries, EmptyTable, Estate, Belongings,
      NoRepeats, FreeOnDisk,
      Neutral, Mutator.Spent;
    EstateFacts(m.vol.src.blocks, m.vol.f, m.shape, h, out);
    ghost var d := m.vol.src.blocks;
    m.Disown(h, out);
    var freed := m.FreeAll(out);
    m.FlushBitmap();
    ghost var e := m.vol.src.blocks;
    m.StampBlocksUsed();
    CarriesOn(d, m.shape, e, m.shape, m.vol.src.blocks, m.shape);
  }

  /** Give back a header and everything it owns. */
  method GiveBack(m: Mutator, h: Lba, out: seq<Lba>)
    requires m.Valid() && h in m.shape.orphans && h < |m.vol.src.blocks| && m.vol.src.blocks[h].Header?
              && m.shape.Owns(h)
    requires m.vol.f.payload > 0 && Estate(m.vol.src.blocks, m.vol.f, m.shape, h, out)
              && EmptyTable(m.vol.src.blocks[h])
    modifies m, m.vol.src, m.alloc
    ensures m.Valid() && m.Entries() == old(m.Entries())
    ensures m.shape.orphans == old(m.shape).orphans - {h} && m.alloc.Free() == old(m.alloc.Free()) + SetOf(out)
    ensures Carries(old(m.vol.src.blocks), m.shape, m.vol.src.blocks, m.shape)
    ensures Shown(m.vol.src.trail, |old(m.vol.src.trail)|, m.vol.f, m.vol.root, {m.Entries()})
              && old(m.vol.src.trail) <= m.vol.src.trail
    ensures OthersRead(old(m.vol.src.blocks), m.vol.f, old(m.shape), h, m.vol.src.trail, |old(m.vol.src.trail)|)
    ensures StillThere(old(m.vol.src.blocks), m.vol.f, old(m.shape), h, m.vol.src.blocks, m.shape)
  {
    hide Mutator.Steady, Rooted, Tree, Grown, Named, Carries, EmptyTable, Shown, OthersRead, StillThere, Began, Estate,
      Alone,
      Belongings, FilesStay, NoRepeats;
    ghost var d, began, writes, rank := m.vol.src.blocks, m.shape, m.vol.src.trail, m.rank;
    NothingYet(d, m.vol.f, began, h, writes);
    m.Begin(SetOf(out));
    BeganHere(m, SetOf(out));
    EstateFacts(d, m.vol.f, began, h, out);
    EstateIsAlone(m, h, out);
    FilesOutside(m, h, out);
    Surrender(m, h, out);
    m.ShownSince(d, began, writes, SetOf(out));
    ReadyNow(m);
    OthersPhase(m, d, began, h, |writes|, d, began, rank, writes, SetOf(out));
  }

  /** Free a header no directory names, its chain and everything else it owns; returns how
      many blocks came back. Every other file reads the same at every write. */
  method Release(m: Mutator, h: Lba) returns (r: Result<nat, MutateError>)
    requires m.Valid() && Releasable(m, h)
    modifies m, m.vol.src, m.alloc
    ensures m.Valid() && m.Entries() == old(m.Entries())
    ensures r.Ok? ==> h in old(m.shape).orphans && m.shape.orphans == old(m.shape).orphans - {h}
    ensures h in old(m.Entries()) ==> r == Err(StillLinked(h, old(m.Entries())[h].dir))
    ensures h == m.vol.root ==> r == Err(IsRoot(h))
    ensures r.Err? ==> m.vol.src.blocks == old(m.vol.src.blocks) && m.alloc.Free() == old(m.alloc.Free())
    ensures Carries(old(m.vol.src.blocks), m.shape, m.vol.src.blocks, m.shape)
    ensures Shown(m.vol.src.trail, |old(m.vol.src.trail)|, m.vol.f, m.vol.root, {m.Entries()})
              && old(m.vol.src.trail) <= m.vol.src.trail
    ensures m.vol.f.payload > 0 && OthersRead(old(m.vol.src.blocks), m.vol.f, old(m.shape), h, m.vol.src.trail,
              |old(m.vol.src.trail)|)
    ensures StillThere(old(m.vol.src.blocks), m.vol.f, old(m.shape), h, m.vol.src.blocks, m.shape)
    ensures r.Ok? ==> Reclaimed(old(m.vol.src.blocks), m.vol.f, h, old(m.alloc.Free()), m.alloc.Free(), r.value)
    ensures r.Ok? <==> old(Ripe(m, h))
    ensures old(h in m.shape.orphans && Reclaimable(m.vol.src.blocks, m.vol.f, h)
              && IsFolder(m.vol.src.blocks, m.shape, m.vol.src.blocks[h].parent)) ==>
              r.Ok?
  {
    hide Mutator.Ready, Orderly, Mutation.Kept, Rooted, Tree, Grown, Named, Carries, IsFolder, EmptyTable, Shown,
      OthersRead, StillThere,
      IsChain, IsCacheOf, Estate, Misses, Reclaimable, Possesses, SlotIn;
    OrderlyNow(m);
    NothingYet(m.vol.src.blocks, m.vol.f, m.shape, h, m.vol.src.trail);
    NothingShown(m.vol.src.trail, m.vol.f, m.vol.root, {m.Entries()});
    CarriesItself(m.vol.src.blocks, m.shape);
    EntriesAreNoOrphans(m);
    if h in m.shape.orphans { OrphanBlock(m, h); }
    if h == m.vol.root {
      return Err(IsRoot(h));
    }
    var linked := StillInChain(m, h);
    match linked {
      case Err(e) => return Err(e);
      case Ok(b) => if b { return Err(StillLinked(h, m.vol.src.blocks[h].parent)); }
    }
    OrphanBlock(m, h);
    var blocks := BlocksOf(m, h);
    if blocks.Err? {
      return Err(blocks.error);
    }
    EstateIsTaken(m, h, blocks.value);
    GiveBack(m, h, blocks.value);
    r := Ok(|blocks.value|);
  }

  /** What a header in use owns is allocated. */
  lemma EstateIsTaken(m: Mutator, h: Lba, out: seq<Lba>)
    requires m.Valid() && m.shape.Owns(h) && m.vol.f.payload > 0 && Estate(m.vol.src.blocks, m.vol.f, m.shape, h, out)
    ensures SetOf(out) !! m.alloc.Free() && Possesses(m.vol.src.blocks, m.vol.f, h, SetOf(out)) && |SetOf(out)| == |out|
  {
    hide Mutator.Ready, Orderly, Rooted, Possesses;
    SizeOfSet(out);
    EstateFacts(m.vol.src.blocks, m.vol.f, m.shape, h, out);
    forall x: Lba | x in SetOf(out)
      ensures m.shape.Owns(x)
    {}
  }

  lemma EstateFacts(d: Disk, f: Format, s: Shape, h: Lba, out: seq<Lba>)
    requires f.payload > 0 && Estate(d, f, s, h, out)
    ensures |out| > 0 && out[0] == h && NoRepeats(out) && Belongings(s, h, SetOf(out[1..]))
    ensures SetOf(out) == {h} + SetOf(out[1..])
  {
    hide Possesses;
    assert out == [out[0]] + out[1..];
  }

  /** What one header owns, no file but it does. */
  lemma EstateIsAlone(m: Mutator, h: Lba, out: seq<Lba>)
    requires m.Valid() && h < |m.vol.src.blocks| && m.vol.src.blocks[h].Header? && m.shape.Owns(h)
              && m.vol.f.payload > 0
    requires Estate(m.vol.src.blocks, m.vol.f, m.shape, h, out)
    ensures Alone(m.vol.src.blocks, m.vol.f, m.shape, h, SetOf(out))
  {
    hide Mutator.Ready, Orderly, Mutation.Kept, Rooted, Grown, IsChain, Estate;
    m.InOrderNow();
    EstateFacts(m.vol.src.blocks, m.vol.f, m.shape, h, out);
    forall a: FileChain | IsChain(m.vol.src.blocks, m.vol.f, a) && m.shape.Owns(a.header) && a.header != h
      ensures BlocksOfChain(a) !! SetOf(out)
    {
      ChainOutside(m.vol.src.blocks, m.vol.f, m.shape, h, SetOf(out[1..]), a);
    }
  }

  lemma ChainOutside(d: Disk, f: Format, s: Shape, h: Lba, gone: set<Lba>, a: FileChain)
    requires f.payload > 0 && Grown(d, s) && h < |d| && d[h].Header? && s.Owns(h) && Belongings(s, h, gone)
    requires IsChain(d, f, a) && s.Owns(a.header) && a.header != h
    ensures BlocksOfChain(a) !! {h} + gone
  {
    hide Grown;
    ChainHeader(d, f, a);
    HeaderApart(d, s, a.header);
    ChainIsOwned(d, f, s, a);
    HeaderIsNoPart(d, f, s, a, h);
    hide IsChain;
    forall i | 0 <= i < |a.extensions|
      ensures a.extensions[i] !in gone
    {
      ExtensionOutside(s, h, gone, a, i);
    }
    NotGone(s, h, gone, a);
  }

  lemma {:induction false} ExtensionOutside(s: Shape, h: Lba, gone: set<Lba>, a: FileChain, i: nat)
    requires i < |a.extensions| && Belongings(s, h, gone) && a.header !in gone && a.header != h && h !in a.extensions
    requires forall i :: 0 <= i < |a.extensions| ==>
              a.extensions[i] in s.up && s.up[a.extensions[i]] == Edge(ExtFrom(a.header, a.extensions, i), Ext)
    ensures a.extensions[i] !in gone
    decreases i
  {
    if i > 0 {
      ExtensionOutside(s, h, gone, a, i - 1);
      assert a.extensions[i - 1] in a.extensions;
    }
  }

  lemma NotGone(s: Shape, h: Lba, gone: set<Lba>, a: FileChain)
    requires Belongings(s, h, gone) && a.header !in gone && a.header != h && h !in a.extensions && h !in a.blocks
    requires forall i :: 0 <= i < |a.extensions| ==> a.extensions[i] !in gone
    requires forall y :: y in a.blocks ==> y in s.up && (s.up[y].from == a.header || s.up[y].from in a.extensions)
    ensures BlocksOfChain(a) !! {h} + gone
  {}

  /** No header of another file is given back. */
  lemma FilesOutside(m: Mutator, h: Lba, out: seq<Lba>)
    requires m.Valid() && |out| > 0 && Belongings(m.shape, h, SetOf(out[1..]))
    ensures FilesStay(m.vol.src.blocks, m.shape, Shape(m.shape.root, m.shape.up - SetOf(out[1..]),
              m.shape.orphans - {h}), h)
  {
    hide Mutator.Ready, Named, Mutation.Kept, Rooted, Grown;
    m.InOrderNow();
    var d, s := m.vol.src.blocks, m.shape;
    forall k: Lba | s.Owns(k) && k < |d| && IsFile(d[k]) && k != h
      ensures Shape(s.root, s.up - SetOf(out[1..]), s.orphans - {h}).Owns(k)
    {
      HeaderApart(d, s, k);
    }
  }

  /** Whether the one chain a lookup of the header's own name would walk still comes to it. */
  method StillInChain(m: Mutator, h: Lba) returns (r: Result<bool, MutateError>)
    requires m.Valid() && Releasable(m, h) && h != m.vol.root
    ensures r.Ok? ==>
              h < |m.vol.src.blocks| && m.vol.src.blocks[h].Header? && (h in m.shape.orphans || h in m.Entries())
    ensures h in m.Entries() ==> r == Ok(true) && m.vol.src.blocks[h].parent == m.Entries()[h].dir
    ensures h in m.shape.orphans && h < |m.vol.src.blocks| && m.vol.src.blocks[h].Header?
              && IsFolder(m.vol.src.blocks, m.shape, m.vol.src.blocks[h].parent) ==>
              r == Ok(false)
    ensures h in m.shape.orphans ==> (r == Ok(false) <==> Forgotten(m.vol.src.blocks, m.vol.f, h))
  {
    hide Mutator.Ready, Orderly, Mutation.Kept, Rooted, Tree, Grown, Named, IsFolder, Misses;
    m.InOrderNow();
    if h in m.Entries() { FiledInChain(m, h); }
    var entry := m.vol.EntryAt(h);
    match entry {
      case Err(e) => return Err(Read(e));
      case Ok(b) =>
        SlotBound(m.vol.f, b.name);
        ZeroIsNobody(m, h);
        if h == 0 {
          return Err(Read(NotHeader(h)));
        }
        var found := m.vol.LocateInHashChain(b.parent, SlotIn(m.vol.f, b.name), h, m.shape, m.rank);
        match found {
          case Err(e) => r := Err(Read(e));
          case Ok(p) => r := Ok(p.Some?);
        }
    }
  }

  lemma FiledInChain(m: Mutator, h: Lba)
    requires m.Valid() && h in m.Entries()
    ensures h < |m.vol.src.blocks| && m.vol.src.blocks[h].Header? && m.vol.src.blocks[h].parent == m.Entries()[h].dir
    ensures IsFolder(m.vol.src.blocks, m.shape, m.vol.src.blocks[h].parent)
    ensures var b := m.vol.src.blocks[h]; InSlot(m.vol.src.blocks, m.vol.f, m.shape, m.rank, b.parent,
              SlotIn(m.vol.f, b.name), h)
  {
    hide Mutator.Ready, Mutation.Kept, Climbs;
    ParentIsDirectory(m.vol.src.blocks, m.shape, h);
    EntryInSlot(m, m.vol.src.blocks[h].parent, h);
  }

  lemma OrphanBlock(m: Mutator, h: Lba)
    requires m.Valid() && h in m.shape.orphans
    ensures h < |m.vol.src.blocks| && m.vol.src.blocks[h].Header? && m.shape.Owns(h)
  {
    hide Mutator.Ready, Named;
    OwnedInside(m.vol.src.blocks, m.shape, h);
  }

  lemma EntriesAreNoOrphans(m: Mutator)
    requires m.Valid()
    ensures forall h :: h in m.Entries() ==> h !in m.shape.orphans && h != m.vol.root
    ensures m.vol.root !in m.shape.orphans
  {
    hide Mutator.Ready, Named, Mutation.Kept;
  }

  /** What is known of all files is known of all but one. */
  lemma ForAllOthers(d: Disk, f: Format, s: Shape, h: Lba, e: Disk, t: Shape, trail: seq<Disk>, from: nat)
    requires f.payload > 0 && Grown(d, s) && StillThere(d, f, s, 0, e, t) && OthersRead(d, f, s, 0, trail, from)
    ensures StillThere(d, f, s, h, e, t) && OthersRead(d, f, s, h, trail, from)
  {
    hide FileIs, Stored;
    assert forall k: Lba :: s.Owns(k) ==> Recorded(d, s, k);
    hide Grown;
  }

  /** What an unlinked header owned, it owns, and it can be given back. */
  lemma PossessedStill(d: Disk, f: Format, s: Shape, h: Lba, own: set<Lba>, e: Disk, t: Shape)
    requires f.payload > 0 && Grown(d, s) && s.Owns(h) && Reclaimable(d, f, h) && Possesses(d, f, h, own)
              && EstateKept(d, s, h, e) && Carries(d, s, e, t)
    ensures Possesses(e, f, h, own) && Reclaimable(e, f, h)
  {
    CarriesSpares(d, s, e, t);
    hide Possesses, Reclaimable, EstateKept, Grown, Carries, Spares;
    PossessionStays(d, f, s, h, e, own);
    StillReclaimable(d, f, s, h, e);
  }

  lemma GivenBack(d: Disk, e: Disk, f: Format, h: Lba, own: set<Lba>, was: set<Lba>, now: set<Lba>, r: Result<nat,
          MutateError>)
    requires f.payload > 0 && Possesses(d, f, h, own) && Possesses(e, f, h, own)
              && (r.Ok? ==> Reclaimed(e, f, h, was, now, r.value))
    ensures r.Ok? ==> Reclaimed(d, f, h, was, now, r.value) && r.value == |own| && own <= now
  {
    hide Possesses;
    if r.Ok? {
      var all :| Possesses(e, f, h, all) && all !! was && now == was + all && r.value == |all|;
      PossessionIsUnique(e, f, h, own, all);
    }
  }

  /** In every state from `from` on file `h` reads as it did, or the directories are as they
      are without it. */
  ghost predicate WholeOrGone(d: Disk, f: Format, h: Lba, trail: seq<Disk>, from: nat, root: Lba, tree: map<Lba, Fact>)
    requires f.payload > 0
  {
    forall t, i :: FileIs(d, f, h, t) && from <= i < |trail| ==>
        FileIs(trail[i], f, h, t) || Shows(trail[i], f, root, tree)
  }

  /** While a file is being unlinked it reads; while it is being given back it is not there. */
  lemma WholeThenGone(d: Disk, f: Format, s: Shape, h: Lba, first: seq<Disk>, from: nat, all: seq<Disk>, root: Lba,
          tree: map<Lba, Fact>)
    requires f.payload > 0 && OthersRead(d, f, s, 0, first, from) && h != 0 && s.Owns(h)
    requires first <= all && Shown(all, |first|, f, root, {tree})
    ensures WholeOrGone(d, f, h, all, from, root, tree)
  {
    hide FileIs, Shows;
    forall t, i | FileIs(d, f, h, t) && from <= i < |all|
      ensures FileIs(all[i], f, h, t) || Shows(all[i], f, root, tree)
    {
      if i < |first| { assert all[i] == first[i]; } else { OnlyView(all, i, |first|, f, root, tree); }
    }
  }

  lemma EntriesHaveHeaders(d: Disk, f: Format, g: Geometry, s: Shape, rank: map<Lba, int>, root: Lba)
    requires Orderly(d, f, g, s, rank, root)
    ensures forall h :: h in Tree(d, s) ==> s.Owns(h) && h != 0
  {
    PagesAreOwned(d, f, g, s, rank, root);
    hide Grown, Named;
  }

  /** Unlink, then release what it returned. Every file but the one deleted reads the same
      at every write. */
  method Delete(m: Mutator, dir: Lba, name: Bytes) returns (r: Result<nat, MutateError>, ghost h: Lba)
    requires m.Valid() && m.Handle(dir)
    modifies m, m.vol.src, m.alloc
    ensures m.Valid()
    ensures if h == 0 then r.Err? && m.Entries() == old(m.Entries())
            else
              Filed(old(m.Entries()), m.vol.f.intl, dir, name, h) && m.Entries() == old(m.Entries()) - {h}
              && (r.Err? ==> m.vol.f.dircache)
    ensures r.Ok? ==> m.shape.orphans == old(m.shape).orphans
    ensures forall k ::
              Filed(old(m.Entries()), m.vol.f.intl, dir, name, k) && !Childless(old(m.Entries()), k)
              && |name| <= MaxName(m.vol.f) ==>
              r == Err(DirectoryNotEmpty(k))
    ensures Shown(m.vol.src.trail, |old(m.vol.src.trail)|, m.vol.f, m.vol.root, {old(m.Entries()), m.Entries()})
    ensures m.vol.f.payload > 0 && OthersRead(old(m.vol.src.blocks), m.vol.f, old(m.shape), h, m.vol.src.trail,
              |old(m.vol.src.trail)|)
    ensures StillThere(old(m.vol.src.blocks), m.vol.f, old(m.shape), h, m.vol.src.blocks, m.shape)
    ensures !m.vol.f.dircache ==> (r.Ok? <==> old(MayUnlink(m.vol.f, m.vol.src.blocks, m.shape, dir, name)))
    ensures r.Ok? && !m.vol.f.dircache ==>
              Reclaimed(old(m.vol.src.blocks), m.vol.f, h, old(m.alloc.Free()), m.alloc.Free(), r.value)
    ensures r.Ok? ==>
              exists own :: Possesses(old(m.vol.src.blocks), m.vol.f, h, own) && r.value == |own|
                    && own <= m.alloc.Free()
    ensures r.Err? && !m.vol.f.dircache ==> m.alloc.Free() == old(m.alloc.Free())
    ensures old(m.vol.src.trail) <= m.vol.src.trail
    ensures h != 0 ==>
              WholeOrGone(old(m.vol.src.blocks), m.vol.f, h, m.vol.src.trail, |old(m.vol.src.trail)|, m.vol.root,
              m.Entries())
  {
    hide Mutator.Ready, Orderly, Mutation.Kept, Rooted, Tree, Grown, Named, Carries, IsFolder, Childless, SameName,
      Mirrors, Estate, Shown,
      Mutator.BeganWith,
      OthersRead, StillThere, Possesses, Reclaimable, EstateKept, Misses, MayUnlink, WholeOrGone;
    EntriesAreNoOrphans(m);
    OrderlyNow(m);
    m.RootFacts();
    ghost var d, s, rank, tree, writes := m.vol.src.blocks, m.shape, m.rank, m.Entries(), m.vol.src.trail;
    EntriesHaveHeaders(d, m.vol.f, m.g, s, rank, m.vol.root);
    h := 0;
    var unlinked := Unlink(m, dir, name);
    m.ShownSince(d, s, writes, {});
    ghost var first, e, t := m.vol.src.trail, m.vol.src.blocks, m.shape;
    ShownWider(first, |writes|, m.vol.f, m.vol.root, m.views, {tree, m.Entries()});
    if unlinked.Err? {
      if m.Entries() != tree { h :| Filed(tree, m.vol.f.intl, dir, name, h) && m.Entries() == tree - {h}; }
      if h != 0 {
        NothingShown(first, m.vol.f, m.vol.root, {m.Entries()});
        WholeThenGone(d, m.vol.f, s, h, first, |writes|, first, m.vol.root, m.Entries());
      }
      ForAllOthers(d, m.vol.f, s, h, e, t, first, |writes|);
      return Err(unlinked.error), h;
    }
    h := unlinked.value;
    OthersSoFar(m, d, s, rank, writes, h);
    ghost var own := SomethingPossessed(d, m.vol.f, h);
    ghost var free := m.alloc.Free();
    PossessedStill(d, m.vol.f, s, h, own, e, t);
    r := Release(m, unlinked.value);
    if h != 0 { WholeThenGone(d, m.vol.f, s, h, first, |writes|, m.vol.src.trail, m.vol.root, m.Entries()); }
    GivenBack(d, e, m.vol.f, h, own, free, m.alloc.Free(), r);
    ShownWider(m.vol.src.trail, |first|, m.vol.f, m.vol.root, {m.Entries()}, {tree, m.Entries()});
    ShownOn(first, m.vol.src.trail, |writes|, m.vol.f, m.vol.root, {tree, m.Entries()});
    OthersJoin(d, m.vol.f, s, h, first, |writes|, e, t, m.vol.src.trail, m.vol.src.blocks, m.shape);
  }
}
