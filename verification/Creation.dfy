/**
 Creating entries: everything new is on the disk, and allocated there, before the one
 write that enters its name into the directory.
 */
module Creation {
  import opened Words
  import opened Disk
  import opened Allocation
  import opened Names
  import opened Forest
  import opened Directories
  import opened Dircache
  import opened Protocol
  import opened Reader
  import opened Steps
  import opened Mutation

  const NAC_LEN := 112
  const COMMENT_MAX := 79

  predicate NameByte(c: Byte) {
    c != 0x3A && c != 0x2F && c >= 0x20 && !(0x7F <= c <= 0x9F)
  }

  predicate NameOk(name: Bytes, max: nat) {
    0 < |name| <= max && forall i :: 0 <= i < |name| ==> NameByte(name[i])
  }

  /** Refuse a name no directory may hold, pointing at its first bad byte. */
  method CheckName(name: Bytes, max: nat) returns (r: Result<(), MutateError>)
    ensures r.Ok? <==> NameOk(name, max)
    ensures r.Err? && r.error.NameInvalidByte? ==>
              r.error.index < |name| && !NameByte(name[r.error.index]) && NameOk(name[..r.error.index] + [0x41], |name|)
  {
    if name == [] {
      return Err(NameEmpty);
    }
    if |name| > max {
      return Err(MutateError.NameTooLong(|name|, max));
    }
    var i := 0;
    while i < |name|
      invariant 0 <= i <= |name| && forall j :: 0 <= j < i ==> NameByte(name[j])
    {
      if !NameByte(name[i]) {
        return Err(NameInvalidByte(name[i], i));
      }
      i := i + 1;
    }
    r := Ok(());
  }

  /** The name and the comment of a long-name entry share one field; a comment that does
      not fit has a block of its own. */
  predicate NeedsCommentBlock(f: Format, name: Bytes, comment: Bytes) {
    f.longNames && 1 + |name| + 1 + |comment| > NAC_LEN
  }

  datatype Prepared = Prepared(lba: Lba, note: Lba)

  /** The blocks a new header takes: its own, and its comment's where that has one. */
  function HeaderBlocks(f: Format, name: Bytes, comment: Bytes): nat {
    if NeedsCommentBlock(f, name, comment) then 2 else 1
  }

  /** The directory can hold the name and does not, and the comment fits. */
  ghost predicate Nameable(m: Mutator, dir: Lba, name: Bytes, comment: Bytes)
    reads m`shape, m.vol.src
  {
    && NameOk(name, MaxName(m.vol.f)) && |comment| <= COMMENT_MAX
    && IsFolder(m.vol.src.blocks, m.shape, dir) && Absent(m.Entries(), m.vol.f.intl, dir, name)
  }

  /** What a create needs: a name, and `blocks` free blocks. */
  ghost predicate MayCreate(m: Mutator, dir: Lba, name: Bytes, comment: Bytes, blocks: nat)
    reads m`shape, m.vol.src, m.alloc`words
  {
    Nameable(m, dir, name, comment) && blocks <= |m.alloc.Free()|
  }

  lemma OneLess(was: set<Lba>, x: Lba)
    requires x in was
    ensures |was - {x}| + 1 == |was|
  {}

  /** Settle everything a create must before it writes a header: the name is legal and
      free, and the header block, and the comment's block where it needs one, are taken. */
  method Prepare(m: Mutator, dir: Lba, name: Bytes, comment: Bytes) returns (r: Result<Prepared, MutateError>)
    requires m.Valid() && m.Handle(dir)
    modifies m.vol.src, m.alloc
    ensures m.Valid() && m.Entries() == old(m.Entries())
    ensures r.Ok? <==> old(MayCreate(m, dir, name, comment, HeaderBlocks(m.vol.f, name, comment)))
    ensures r.Err? ==> m.alloc.Free() == if old(Nameable(m, dir, name, comment)) then {} else old(m.alloc.Free())
    ensures r.Ok? ==> |m.alloc.Free()| + HeaderBlocks(m.vol.f, name, comment) == |old(m.alloc.Free())|
    ensures r.Ok? ==> IsFolder(m.vol.src.blocks, m.shape, dir) && Absent(m.Entries(), m.vol.f.intl, dir, name)
    ensures r.Ok? ==> NameOk(name, MaxName(m.vol.f)) && |comment| <= COMMENT_MAX
    ensures r.Ok? ==> m.Mine(r.value.lba) && r.value.lba < |m.vol.src.blocks|
    ensures r.Ok? ==> (r.value.note != 0 <==> NeedsCommentBlock(m.vol.f, name, comment))
    ensures r.Ok? ==> NoteWritten(m.vol.src.blocks, r.value, comment) && (r.value.note != 0 ==> m.Mine(r.value.note))
    ensures Carries(old(m.vol.src.blocks), m.shape, m.vol.src.blocks, m.shape)
    ensures NameOk(name, MaxName(m.vol.f)) && |comment| <= COMMENT_MAX
              && !Absent(m.Entries(), m.vol.f.intl, dir, name) ==>
              old(IsFolder(m.vol.src.blocks, m.shape, dir)) ==> r == Err(DuplicateName(dir, name))
  {
    hide Mutator.Steady, Rooted, Absent, SameName, IsFolder, Tree, Mutator.Mine, Carries, NameOk, NeedsCommentBlock,
      NoteWritten, Grown;
    ghost var d := m.vol.src.blocks;
    CarriesItself(d, m.shape);
    var free := NameIsFree(m, dir, name, comment);
    if free.Err? {
      return Err(free.error);
    }
    r := TakeHeader(m, dir, name, comment);
    m.StillFolder(d, dir);
  }

  /** The header's block, and the block of a comment that needs one, written. */
  method TakeHeader(m: Mutator, hint: Lba, name: Bytes, comment: Bytes) returns (r: Result<Prepared, MutateError>)
    requires m.Valid()
    modifies m.vol.src, m.alloc
    ensures m.Valid() && m.Entries() == old(m.Entries()) && |m.vol.src.blocks| == |old(m.vol.src.blocks)|
    ensures Grown(old(m.vol.src.blocks), m.shape)
    ensures r.Ok? <==> HeaderBlocks(m.vol.f, name, comment) <= |old(m.alloc.Free())|
    ensures r.Err? ==> m.alloc.Free() == {}
    ensures r.Ok? ==> |m.alloc.Free()| + HeaderBlocks(m.vol.f, name, comment) == |old(m.alloc.Free())|
    ensures r.Ok? ==> m.Mine(r.value.lba) && r.value.lba < |m.vol.src.blocks|
    ensures r.Ok? ==> (r.value.note != 0 <==> NeedsCommentBlock(m.vol.f, name, comment))
    ensures r.Ok? ==> NoteWritten(m.vol.src.blocks, r.value, comment) && (r.value.note != 0 ==> m.Mine(r.value.note))
    ensures Carries(old(m.vol.src.blocks), m.shape, m.vol.src.blocks, m.shape)
  {
    hide Mutator.Steady, Rooted, Tree, Mutator.Mine, Carries, Grown, NeedsCommentBlock;
    m.InOrderNow();
    ghost var d, was := m.vol.src.blocks, m.alloc.Free();
    CarriesItself(d, m.shape);
    var lba := m.TakeBlock(hint);
    if lba.Err? {
      return Err(lba.error);
    }
    OneLess(was, lba.value);
    if !NeedsCommentBlock(m.vol.f, name, comment) {
      return Ok(Prepared(lba.value, 0));
    }
    was := m.alloc.Free();
    ghost var e := m.vol.src.blocks;
    var note := m.TakeBlock(lba.value);
    CarriesOn(d, m.shape, e, m.shape, m.vol.src.blocks, m.shape);
    if note.Err? {
      return Err(note.error);
    }
    OneLess(was, note.value);
    e := m.vol.src.blocks;
    m.MineFacts(note.value);
    m.PutLoose(note.value, Comment(note.value, lba.value, comment));
    CarriesOn(d, m.shape, e, m.shape, m.vol.src.blocks, m.shape);
    r := Ok(Prepared(lba.value, note.value));
  }

  /** The name is one this directory can hold and does not. */
  method NameIsFree(m: Mutator, dir: Lba, name: Bytes, comment: Bytes) returns (r: Result<(), MutateError>)
    requires m.Valid() && m.Handle(dir)
    ensures r.Ok? <==> Nameable(m, dir, name, comment)
    ensures r.Ok? ==> IsFolder(m.vol.src.blocks, m.shape, dir) && Absent(m.Entries(), m.vol.f.intl, dir, name)
    ensures r.Ok? ==> NameOk(name, MaxName(m.vol.f)) && |comment| <= COMMENT_MAX
    ensures NameOk(name, MaxName(m.vol.f)) && |comment| <= COMMENT_MAX && IsFolder(m.vol.src.blocks, m.shape, dir) ==>
              if Absent(m.Entries(), m.vol.f.intl, dir, name) then r.Ok? else r == Err(DuplicateName(dir, name))
  {
    hide Mutator.Ready, Orderly, Mutation.Kept, Rooted, Absent, Matches, SameName, IsFolder, FreeOnDisk, Tree;
    var named := CheckName(name, MaxName(m.vol.f));
    if named.Err? {
      return Err(named.error);
    }
    if |comment| > COMMENT_MAX {
      return Err(CommentTooLong(|comment|));
    }
    var folder := m.ExpectDirectory(dir);
    if folder.Err? {
      return Err(folder.error);
    }
    m.InOrderNow();
    MatchesInTree(m.vol.src.blocks, m.vol.f, m.shape, dir, name);
    var found := m.vol.Lookup(dir, name, m.shape, m.rank);
    match found {
      case Err(e) => r := Err(Read(e));
      case Ok(None) => r := Ok(());
      case Ok(Some(_)) => r := Err(DuplicateName(dir, name));
    }
  }

  /** What sets one new header apart from another. */
  datatype Body = Body(kind: Kind, table: seq<Lba>, ext: Lba, size: nat, nextLink: Lba, realEntry: Lba, path: Bytes)

  function NewHeader(lba: Lba, dir: Lba, name: Bytes, comment: Bytes, note: Lba, chain: Lba, meta: Meta,
          body: Body): Block {
    Header(body.kind, lba, dir, name, if note != 0 then [] else comment, note, chain,
           body.table, body.ext, body.size, body.nextLink, body.realEntry, body.path, meta)
  }

  /** Write the header, chain it into its directory, then bring the advisory records up
      to date. `mine` are the blocks that hang off the header, all of them written. */
  method Emit(m: Mutator, dir: Lba, name: Bytes, comment: Bytes, meta: Meta, prep: Prepared, body: Body,
          ghost mine: map<Lba, Edge>)
    returns (r: Result<Lba, MutateError>)
    requires m.Valid() && IsFolder(m.vol.src.blocks, m.shape, dir) && Absent(m.Entries(), m.vol.f.intl, dir, name)
    requires m.Mine(prep.lba) && prep.lba < |m.vol.src.blocks| && prep.lba !in mine && forall y: Lba :: y in mine ==>
              m.Mine(y)
    requires NoteWritten(m.vol.src.blocks, prep, comment)
    requires body.kind.Directory? ==> |body.table| == m.vol.f.slots
    requires Mutator.Hung(m.vol.src.blocks[prep.lba :=
              NewHeader(prep.lba, dir, name, comment, prep.note, 0, meta, body)], prep.lba, mine)
    modifies m`live, m`shape, m`rank, m`views, m.vol.src, m.alloc
    ensures m.views == old(m.views) + {m.Entries()}
    ensures m.Valid() && prep.lba !in old(m.Entries()) && IsFolder(m.vol.src.blocks, m.shape, dir)
    ensures m.Entries() == old(m.Entries())[prep.lba :=
              Fact(dir, name, body.kind, meta.protection, meta.owner, comment, body.realEntry,
              UpToNul(body.path))]
    ensures if r.Ok? then r.value == prep.lba else m.vol.f.dircache
    ensures r.Ok? && m.vol.f.dircache ==> Mirrors(m.vol.src.blocks, m.vol.f, m.shape, dir)
    ensures !m.vol.f.dircache ==> m.alloc.Free() == old(m.alloc.Free())
    ensures Carries(old(m.vol.src.blocks), old(m.shape), m.vol.src.blocks, m.shape)
    ensures Says(m.vol.src.blocks, prep.lba, NewHeader(prep.lba, dir, name, comment, prep.note, 0, meta, body))
  {
    hide Mutator.Steady, Rooted, Absent, FreeOnDisk, Tree, Mutator.Hung, Mirrors, Mutator.Mine, Grown, KeepsFile,
      BearsFile, NewHeader;
    ghost var d, was := m.vol.src.blocks, m.shape;
    NewHeaderIs(prep.lba, dir, name, comment, prep.note, 0, meta, body);
    FolderIsDirectory(d, was, dir);
    m.MineFacts(prep.lba);
    m.RootFacts();
    ghost var before := FileEntry(m, dir, name, comment, meta, prep, body, mine);
    ghost var e, s := m.vol.src.blocks, m.shape;
    m.RootFacts();
    r := Conclude(m, dir, prep.lba);
    CarriesOn(d, was, e, s, m.vol.src.blocks, m.shape);
  }

  /** Block `lba` is the header `hdr`, wherever in its hash chain that has come to be. */
  predicate Says(d: Disk, lba: Lba, hdr: Block)
    requires hdr.Header?
  {
    lba < |d| && d[lba].Header? && d[lba].(chain := hdr.chain) == hdr
  }

  /** No header in use but `dir` and the root has been written. */
  ghost predicate HeadersStay(d: Disk, s: Shape, dir: Lba, root: Lba, e: Disk) {
    |e| == |d| && forall x: Lba :: s.Owns(x) && x < |d| && d[x].Header? && x != dir && x != root ==> e[x] == d[x]
  }

  lemma CacheKeepsHeaders(d: Disk, s: Shape, dir: Lba, root: Lba, e: Disk, t: Shape)
    requires OnlyCacheOf(d, s, dir, e, t)
    ensures HeadersStay(d, s, dir, root, e)
    ensures forall x: Lba :: s.Owns(x) && x < |d| && d[x].Header? && x != dir ==> t.Owns(x)
  {}

  predicate NoteWritten(d: Disk, prep: Prepared, comment: Bytes) {
    prep.note != 0 ==> prep.note != prep.lba && prep.note < |d| && d[prep.note] == Comment(prep.note, prep.lba, comment)
  }

  /** After the one write that decides: the directory's cache, its date, the root's count. */
  method Conclude(m: Mutator, dir: Lba, lba: Lba) returns (r: Result<Lba, MutateError>)
    requires m.Valid() && IsFolder(m.vol.src.blocks, m.shape, dir)
    modifies m`live, m`shape, m.vol.src, m.alloc
    ensures m.Valid() && m.Entries() == old(m.Entries()) && m.shape.orphans == old(m.shape.orphans)
    ensures IsFolder(m.vol.src.blocks, m.shape, dir)
    ensures Carries(old(m.vol.src.blocks), old(m.shape), m.vol.src.blocks, m.shape)
    ensures if r.Ok? then r.value == lba else m.vol.f.dircache
    ensures r.Ok? && m.vol.f.dircache ==> Mirrors(m.vol.src.blocks, m.vol.f, m.shape, dir)
    ensures !m.vol.f.dircache ==> m.alloc.Free() == old(m.alloc.Free())
    ensures HeadersStay(old(m.vol.src.blocks), old(m.shape), dir, m.vol.root, m.vol.src.blocks)
  {
    hide Mutator.Steady, Rooted, Tree, Carries, Mirrors, Neutral, Grown, IsFolder, OnlyCacheOf, OnlyDated;
    ghost var d, s := m.vol.src.blocks, m.shape;
    m.FolderFacts(dir);
    var refreshed := m.RefreshDircache(dir);
    ghost var e := m.vol.src.blocks;
    CacheKeepsHeaders(d, s, dir, m.vol.root, e, m.shape);
    m.RootFacts();
    Mutator.FolderStays(d, s, e, m.shape, dir);
    if refreshed.Err? {
      return Err(refreshed.error);
    }
    m.Touch(dir);
    CarriesOn(d, s, e, m.shape, m.vol.src.blocks, m.shape);
    e := m.vol.src.blocks;
    m.RootFacts();
    m.StampBlocksUsed();
    CarriesOn(d, s, e, m.shape, m.vol.src.blocks, m.shape);
    m.StillFolder(e, dir);
    m.RootFacts();
    NeutralItself(e[dir]);
    if Mirrors(e, m.vol.f, m.shape, dir) { RootKeepsMirror(e, m.vol.f, m.shape, dir, m.vol.src.blocks); }
    r := Ok(lba);
  }

  lemma ChainHangsElsewhere(d: Disk, lba: Lba, dir: Lba, name: Bytes, comment: Bytes, note: Lba, chain: Lba,
          meta: Meta, body: Body, mine: map<Lba, Edge>)
    requires lba < |d| && lba !in mine
    requires Mutator.Hung(d[lba := NewHeader(lba, dir, name, comment, note, 0, meta, body)], lba, mine)
    ensures Mutator.Hung(d[lba := NewHeader(lba, dir, name, comment, note, chain, meta, body)], lba, mine)
  {
    assert forall l: Link :: !l.Chain? ==>
        At(NewHeader(lba, dir, name, comment, note, chain, meta, body), l) ==
            At(NewHeader(lba, dir, name, comment, note, 0, meta, body), l);
  }

  lemma NewHeaderFact(d: Disk, lba: Lba, dir: Lba, name: Bytes, comment: Bytes, note: Lba, chain: Lba, meta: Meta,
          body: Body)
    requires note != 0 ==> note < |d| && d[note] == Comment(note, lba, comment)
    requires lba < |d|
    ensures FactOf(d, NewHeader(lba, dir, name, comment, note, chain, meta, body)) ==
              Fact(dir, name, body.kind, meta.protection, meta.owner, comment, body.realEntry, UpToNul(body.path))
  {}

  lemma NewBlocksCarry(d: Disk, s: Shape, lba: Lba, b: Block, mine: map<Lba, Edge>)
    requires lba < |d| && !s.Owns(lba)
    ensures Carries(d, s, d[lba := b], Shape(s.root, s.up + mine, s.orphans + {lba}))
  {}

  lemma OwnedStill(s: Shape, lba: Lba, mine: map<Lba, Edge>, dir: Lba, slot: nat, next: Lba, t: Shape)
    requires t == Linked(Shape(s.root, s.up + mine, s.orphans + {lba}), dir, slot, lba, next)
    ensures t.Owns(lba) && forall y: Lba :: y in mine ==> t.Owns(y)
  {}

  lemma FiledBlocks(d: Disk, s: Shape, lba: Lba, hdr: Block, mine: map<Lba, Edge>, dir: Lba, slot: nat, e: Disk)
    requires lba < |d| && dir < |d| && s.Owns(dir) && !s.Owns(lba) && lba !in mine && hdr.Header?
    requires forall y: Lba :: y in mine ==> !s.Owns(y) && y < |d|
    requires IsDirectory(d[dir]) && slot < |HashTable(d[dir])|
    requires e == d[lba := hdr][dir := WithSlot(d[dir], slot, lba)]
    ensures lba < |e| && e[lba] == hdr && forall chain :: KeepsFile(hdr.(chain := chain), e[lba])
    ensures forall y: Lba :: y in mine ==> y < |e| && e[y] == d[y]
  {}

  lemma NotAnEntryYet(m: Mutator, x: Lba)
    requires !m.shape.Owns(x)
    ensures x !in m.Entries()
  {}

  /** Write the header and file it: until its directory's slot names it, the directory has
      not changed and everything before is a leak. */
  method FileEntry(m: Mutator, dir: Lba, name: Bytes, comment: Bytes, meta: Meta, prep: Prepared, body: Body,
          ghost mine: map<Lba, Edge>)
    returns (ghost before: seq<Disk>)
    requires m.Valid() && IsFolder(m.vol.src.blocks, m.shape, dir) && Absent(m.Entries(), m.vol.f.intl, dir, name)
    requires m.Mine(prep.lba) && prep.lba < |m.vol.src.blocks| && prep.lba !in mine && forall y: Lba :: y in mine ==>
              m.Mine(y)
    requires NoteWritten(m.vol.src.blocks, prep, comment)
    requires body.kind.Directory? ==> |body.table| == m.vol.f.slots
    requires Mutator.Hung(m.vol.src.blocks[prep.lba :=
              NewHeader(prep.lba, dir, name, comment, prep.note, 0, meta, body)], prep.lba, mine)
    modifies m`live, m`shape, m`rank, m`views, m.vol.src
    ensures m.views == old(m.views) + {m.Entries()}
    ensures m.Valid() && IsFolder(m.vol.src.blocks, m.shape, dir)
    ensures prep.lba !in old(m.Entries())
    ensures m.Entries() == old(m.Entries())[prep.lba :=
              Fact(dir, name, body.kind, meta.protection, meta.owner, comment, body.realEntry,
              UpToNul(body.path))]
    ensures Carries(old(m.vol.src.blocks), old(m.shape), m.vol.src.blocks, m.shape)
    ensures prep.lba < |m.vol.src.blocks| && m.shape.Owns(prep.lba)
    ensures Says(m.vol.src.blocks, prep.lba, NewHeader(prep.lba, dir, name, comment, prep.note, 0, meta, body))
    ensures KeepsFile(NewHeader(prep.lba, dir, name, comment, prep.note, 0, meta, body), m.vol.src.blocks[prep.lba])
    ensures forall y: Lba :: y in mine ==>
              m.shape.Owns(y) && y < |m.vol.src.blocks| && m.vol.src.blocks[y] == old(m.vol.src.blocks)[y]
    ensures old(m.vol.src.trail) <= before && m.vol.src.trail == before + [m.vol.src.blocks]
    ensures Shown(before, |m.past|, m.vol.f, m.vol.root, old(m.views))
  {
    hide Mutator.Steady, Rooted, Absent, Matches, SameName, FreeOnDisk, Tree, Mutator.Mine, Mutator.Hung, Carries,
      FactOf, At, WithSlot,
      Linked, CommentOf, KeepsFile, Shown, Grown, IsFolder, NewHeader, SlotIn;
    var slot := SlotIn(m.vol.f, name);
    m.InOrderNow();
    m.FolderFacts(dir);
    SlotBound(m.vol.f, name);
    FolderIsDirectory(m.vol.src.blocks, m.shape, dir);
    var head := HashTable(m.vol.src.blocks[dir])[slot];
    var hdr := NewHeader(prep.lba, dir, name, comment, prep.note, head, meta, body);
    NewHeaderIs(prep.lba, dir, name, comment, prep.note, head, meta, body);
    m.HeadIsLive(dir, slot);
    m.MineFacts(prep.lba);
    NotAnEntryYet(m, prep.lba);
    ghost var d, s := m.vol.src.blocks, m.shape;
    m.MineIsUnused(prep.lba, mine);
    ChainHangsElsewhere(d, prep.lba, dir, name, comment, prep.note, head, meta, body, mine);
    NewHeaderFact(d[prep.lba := hdr], prep.lba, dir, name, comment, prep.note, head, meta, body);
    Raise(m, prep.lba, hdr, mine);
    ToldSoFar(m);
    FolderRaised(d, s, dir, prep.lba, hdr, mine);
    before := m.vol.src.trail;
    MatchesInTree(m.vol.src.blocks, m.vol.f, m.shape, dir, name);
    m.EnterName(dir, slot, prep.lba);
    CarriesOn(d, s, d[prep.lba := hdr], Shape(s.root, s.up + mine, s.orphans + {prep.lba}), m.vol.src.blocks, m.shape);
    OwnedStill(s, prep.lba, mine, dir, slot, head, m.shape);
    FiledBlocks(d, s, prep.lba, hdr, mine, dir, slot, m.vol.src.blocks);
    FolderLinked(d[prep.lba := hdr], Shape(s.root, s.up + mine, s.orphans + {prep.lba}), dir, slot, prep.lba, head);
  }

  lemma FolderLinked(d: Disk, s: Shape, dir: Lba, slot: nat, h: Lba, next: Lba)
    requires IsFolder(d, s, dir) && slot < |HashTable(d[dir])|
    ensures IsFolder(d[dir := WithSlot(d[dir], slot, h)], Linked(s, dir, slot, h, next), dir)
  {}

  lemma NewHeaderIs(lba: Lba, dir: Lba, name: Bytes, comment: Bytes, note: Lba, chain: Lba, meta: Meta, body: Body)
    ensures var b := NewHeader(lba, dir, name, comment, note, chain, meta, body);
            && b.Header? && b.parent == dir && b.name == name && b.chain == chain && b.kind == body.kind
                && b.table == body.table
            && (IsDirectory(b) <==> body.kind.Directory?)
                && (forall c :: b.(chain := c) == NewHeader(lba, dir, name, comment, note, c, meta, body))
  {}

  lemma FolderIsDirectory(d: Disk, s: Shape, dir: Lba)
    requires IsFolder(d, s, dir)
    ensures dir < |d| && IsDirectory(d[dir]) && s.Owns(dir)
  {}

  lemma FolderRaised(d: Disk, s: Shape, dir: Lba, h: Lba, hdr: Block, mine: map<Lba, Edge>)
    requires IsFolder(d, s, dir) && h < |d| && !s.Owns(h)
    ensures IsFolder(d[h := hdr], Shape(s.root, s.up + mine, s.orphans + {h}), dir) && d[h := hdr][dir] == d[dir]
  {}

  lemma ToldSoFar(m: Mutator)
    requires m.Steady()
    ensures Shown(m.vol.src.trail, |m.past|, m.vol.f, m.vol.root, m.views)
  {
    hide Sound, Logged, Spares, Mutator.Held, Orderly, Mutation.Kept, Shown, ShowsBy;
  }

  /** Write a header no directory names yet; what hangs off it is complete. */
  method Raise(m: Mutator, h: Lba, hdr: Block, ghost mine: map<Lba, Edge>)
    requires m.Valid() && m.Mine(h) && h < |m.vol.src.blocks| && h !in mine && forall y: Lba :: y in mine ==> m.Mine(y)
    requires hdr.Header? && (hdr.chain == 0 || hdr.chain in m.live)
              && (IsDirectory(hdr) ==> |HashTable(hdr)| == m.vol.f.slots)
    requires Mutator.Hung(m.vol.src.blocks[h := hdr], h, mine)
    modifies m`live, m`shape, m.vol.src
    ensures m.Valid() && m.Entries() == old(m.Entries()) && m.vol.src.blocks == old(m.vol.src.blocks)[h := hdr]
    ensures m.shape == Shape(old(m.shape).root, old(m.shape).up + mine, old(m.shape).orphans + {h}) && h in m.live
    ensures Carries(old(m.vol.src.blocks), old(m.shape), m.vol.src.blocks, m.shape)
              && old(m.vol.src.trail) <= m.vol.src.trail
  {
    hide Mutator.Ready, Orderly, Mutation.Kept, Rooted, FreeOnDisk, Tree, Mutator.Hung, Carries;
    ghost var d, s := m.vol.src.blocks, m.shape;
    m.MineFacts(h);
    m.MineIsUnused(h, mine);
    NewBlocksCarry(d, s, h, hdr, mine);
    m.PutLoose(h, hdr);
    m.Adopt(h, mine);
  }

  // ---- The kinds of entry ------------------------------------------------------------------

  /** The edge to a header's comment block, where it has one. */
  function NoteEdge(prep: Prepared): map<Lba, Edge> {
    if prep.note == 0 then map[] else map[prep.note := Edge(prep.lba, Note)]
  }

  function ZeroTable(slots: nat): seq<Lba> {
    seq(slots, i => 0)
  }

  /** Create an empty directory; on a format with caches it has an empty cache from birth. */
  method CreateDir(m: Mutator, dir: Lba, name: Bytes, comment: Bytes, meta: Meta) returns (r: Result<Lba, MutateError>)
    requires m.Valid() && m.Handle(dir)
    modifies m, m.vol.src, m.alloc
    ensures m.Valid() && m.BeganWith(old(m.vol.src.blocks), old(m.shape), old(m.vol.src.trail), {})
    ensures m.views <= {old(m.Entries()), m.Entries()}
    ensures Outcome(old(m.Entries()), m.Entries(), r, Fact(dir, name, Directory, meta.protection, meta.owner, comment,
              0, []), m.vol.f)
    ensures !m.vol.f.dircache ==>
              (r.Ok? <==> old(MayCreate(m, dir, name, comment, HeaderBlocks(m.vol.f, name, comment))))
    ensures r.Ok? && !m.vol.f.dircache ==>
              |m.alloc.Free()| + HeaderBlocks(m.vol.f, name, comment) == |old(m.alloc.Free())|
    ensures !m.vol.f.dircache && r.Err? ==>
              m.alloc.Free() == if old(Nameable(m, dir, name, comment)) then {} else old(m.alloc.Free())
    ensures r.Ok? && m.vol.f.dircache ==> Mirrors(m.vol.src.blocks, m.vol.f, m.shape, dir)
    ensures Carries(old(m.vol.src.blocks), old(m.shape), m.vol.src.blocks, m.shape)
  {
    hide Mutator.Steady, Rooted, Absent, FreeOnDisk, Tree, Mutator.Hung, Mirrors, Mutator.Mine, Grown, Carries,
      IsFolder;
    m.Begin({});
    ghost var d := m.vol.src.blocks;
    var prep := Prepare(m, dir, name, comment);
    if prep.Err? {
      return Err(prep.error);
    }
    ghost var e := m.vol.src.blocks;
    var born := BirthCache(m, prep.value, dir, comment);
    if born.Err? {
      CarriesOn(d, m.shape, e, m.shape, m.vol.src.blocks, m.shape);
      return Err(born.error);
    }
    CarriesOn(d, m.shape, e, m.shape, m.vol.src.blocks, m.shape);
    e := m.vol.src.blocks;
    ghost var s := m.shape;
    var body := Body(Directory, ZeroTable(m.vol.f.slots), born.value, 0, 0, 0, []);
    NewDirHangs(e, prep.value, dir, name, comment, meta, m.vol.f.slots, born.value);
    r := Emit(m, dir, name, comment, meta, prep.value, body, DirEdges(prep.value, born.value));
    CarriesOn(d, s, e, s, m.vol.src.blocks, m.shape);
    Concluded(old(m.Entries()), m.Entries(), r, prep.value.lba,
        Fact(dir, name, Directory, meta.protection, meta.owner, comment, 0, []), m.vol.f);
  }

  lemma Concluded(was: map<Lba, Fact>, now: map<Lba, Fact>, r: Result<Lba, MutateError>, y: Lba, fact: Fact, f: Format)
    requires Created(was, now, y, fact, f.intl) && if r.Ok? then r.value == y else f.dircache
    ensures Outcome(was, now, r, fact, f)
  {}

  /** The cache block a new directory is born with. */
  method BirthCache(m: Mutator, prep: Prepared, dir: Lba, comment: Bytes) returns (r: Result<Lba, MutateError>)
    requires m.Valid() && IsFolder(m.vol.src.blocks, m.shape, dir) && NoteWritten(m.vol.src.blocks, prep, comment)
    requires m.Mine(prep.lba) && (prep.note != 0 ==> m.Mine(prep.note))
    modifies m.vol.src, m.alloc
    ensures m.Valid() && m.Entries() == old(m.Entries()) && IsFolder(m.vol.src.blocks, m.shape, dir)
    ensures |m.vol.src.blocks| == |old(m.vol.src.blocks)|
    ensures Carries(old(m.vol.src.blocks), m.shape, m.vol.src.blocks, m.shape)
    ensures m.Mine(prep.lba) && (prep.note != 0 ==> m.Mine(prep.note)) && NoteWritten(m.vol.src.blocks, prep, comment)
    ensures r.Err? <==> m.vol.f.dircache && old(m.alloc.Free()) == {}
    ensures !m.vol.f.dircache ==> m.alloc.Free() == old(m.alloc.Free())
    ensures r.Ok? ==>
              (r.value != 0 <==> m.vol.f.dircache) && CacheBorn(m.vol.src.blocks, prep, r.value)
              && (r.value != 0 ==> m.Mine(r.value))
  {
    hide Mutator.Steady, Rooted, FreeOnDisk, Tree, Carries, IsFolder, Mutator.Mine;
    ghost var d := m.vol.src.blocks;
    CarriesItself(d, m.shape);
    if !m.vol.f.dircache {
      return Ok(0);
    }
    m.RootFacts();
    var dc := m.TakeBlock(if m.layoutPolicy then m.vol.root else prep.lba);
    m.StillFolder(d, dir);
    if dc.Err? {
      return Err(dc.error);
    }
    ghost var e := m.vol.src.blocks;
    m.MineFacts(dc.value);
    m.PutLoose(dc.value, Cache(dc.value, prep.lba, [], 0));
    m.StillFolder(d, dir);
    CarriesOn(d, m.shape, e, m.shape, m.vol.src.blocks, m.shape);
    r := Ok(dc.value);
  }

  predicate CacheBorn(d: Disk, prep: Prepared, dc: Lba) {
    dc != 0 ==> dc != prep.lba && dc != prep.note && dc < |d| && d[dc] == Cache(dc, prep.lba, [], 0)
  }

  function DirEdges(prep: Prepared, dc: Lba): map<Lba, Edge> {
    if dc == 0 then NoteEdge(prep) else NoteEdge(prep)[dc := Edge(prep.lba, CacheHead)]
  }

  lemma NewDirHangs(d: Disk, prep: Prepared, dir: Lba, name: Bytes, comment: Bytes, meta: Meta, slots: nat, dc: Lba)
    requires NoteWritten(d, prep, comment) && CacheBorn(d, prep, dc) && prep.lba < |d|
    ensures Mutator.Hung(d[prep.lba := NewHeader(prep.lba, dir, name, comment, prep.note, 0, meta,
              Body(Directory, ZeroTable(slots), dc, 0, 0, 0, []))],
                         prep.lba, DirEdges(prep, dc))
  {
    var b := NewHeader(prep.lba, dir, name, comment, prep.note, 0, meta,
        Body(Directory, ZeroTable(slots), dc, 0, 0, 0, []));
    assert forall l :: At(b, l) == if l.CacheHead? then dc else if l.Note? then prep.note else 0;
    hide At;
    NoteAndCacheHang(d[prep.lba := b], prep, comment, dc);
  }

  lemma NoteAndCacheHang(d: Disk, prep: Prepared, comment: Bytes, dc: Lba)
    requires NoteWritten(d, prep, comment) && CacheBorn(d, prep, dc) && prep.lba < |d|
    requires forall l :: At(d[prep.lba], l) == if l.CacheHead? then dc else if l.Note? then prep.note else 0
    ensures Mutator.Hung(d, prep.lba, DirEdges(prep, dc))
  {
    forall y: Lba, l | y in DirEdges(prep, dc) && y < |d|
      ensures At(d[y], l) == 0
    {}
    hide At;
  }

  /** The bytes a soft link's path has room for: what is a table elsewhere. */
  function PathCapacity(f: Format): nat {
    4 * f.slots
  }

  /** The field, filled from the front, the rest NUL. */
  function PathField(path: Bytes, capacity: nat): Bytes
    requires |path| <= capacity
  {
    path + seq(capacity - |path|, i => 0)
  }

  /** What is read back is what was written exactly when that has no NUL in it. */
  lemma {:induction false} PathReadsBack(path: Bytes, capacity: nat)
    requires |path| <= capacity
    ensures UpToNul(PathField(path, capacity)) == path <==> 0 !in path
    decreases |path|
  {
    var field := PathField(path, capacity);
    if path != [] {
      PathReadsBack(path[1..], capacity - 1);
      assert field[1..] == PathField(path[1..], capacity - 1) && path == [path[0]] + path[1..];
    }
  }

  predicate PathOk(f: Format, path: Bytes) {
    |path| < PathCapacity(f) && 0 !in path
  }

  /** Refuse a path the field cannot hold or would cut short, pointing at its first NUL. */
  method CheckPath(f: Format, path: Bytes) returns (r: Result<(), MutateError>)
    requires f.slots > 0
    ensures r.Ok? <==> PathOk(f, path)
    ensures r.Err? && r.error.SoftlinkPathInvalidByte? ==>
              r.error.index < |path| && path[r.error.index] == 0 && 0 !in path[..r.error.index]
  {
    if |path| >= PathCapacity(f) {
      return Err(SoftlinkPathTooLong(|path|, PathCapacity(f) - 1));
    }
    var i := 0;
    while i < |path|
      invariant 0 <= i <= |path| && 0 !in path[..i]
    {
      if path[i] == 0 {
        return Err(SoftlinkPathInvalidByte(i));
      }
      i := i + 1;
    }
    r := Ok(());
  }

  /** Create a soft link that stores `path`; whoever reads the link reads `path`. */
  method CreateSoftlink(m: Mutator, dir: Lba, name: Bytes, comment: Bytes, meta: Meta, path: Bytes)
          returns (r: Result<Lba, MutateError>)
    requires m.Valid() && m.Handle(dir)
    modifies m, m.vol.src, m.alloc
    ensures m.Valid() && m.BeganWith(old(m.vol.src.blocks), old(m.shape), old(m.vol.src.trail), {})
    ensures m.views <= {old(m.Entries()), m.Entries()}
    ensures Outcome(old(m.Entries()), m.Entries(), r, Fact(dir, name, SoftLink, meta.protection, meta.owner, comment,
              0, path), m.vol.f)
    ensures r.Ok? ==> m.vol.ReadSoftlink(r.value) == Ok(path)
    ensures !PathOk(m.vol.f, path) ==> r.Err? && m.vol.src.blocks == old(m.vol.src.blocks)
    ensures !m.vol.f.dircache ==>
              (r.Ok? <==> PathOk(m.vol.f, path) && old(MayCreate(m, dir, name, comment,
                  HeaderBlocks(m.vol.f, name, comment))))
    ensures r.Ok? && !m.vol.f.dircache ==>
              |m.alloc.Free()| + HeaderBlocks(m.vol.f, name, comment) == |old(m.alloc.Free())|
    ensures !m.vol.f.dircache && r.Err? ==>
              m.alloc.Free() == if PathOk(m.vol.f, path)
              && old(Nameable(m, dir, name, comment)) then {} else old(m.alloc.Free())
    ensures r.Ok? && m.vol.f.dircache ==> Mirrors(m.vol.src.blocks, m.vol.f, m.shape, dir)
    ensures Carries(old(m.vol.src.blocks), old(m.shape), m.vol.src.blocks, m.shape)
  {
    hide Mutator.Steady, Rooted, Absent, FreeOnDisk, Tree, Mutator.Hung, Mirrors, Mutator.Mine, Grown, Carries,
      IsFolder, UpToNul, NameOk;
    m.Begin({});
    ghost var d, s, tree := m.vol.src.blocks, m.shape, m.Entries();
    CarriesItself(d, s);
    m.InOrderNow();
    var checked := CheckPath(m.vol.f, path);
    if checked.Err? {
      return Err(checked.error);
    }
    var prep := Prepare(m, dir, name, comment);
    if prep.Err? {
      return Err(prep.error);
    }
    ghost var e := m.vol.src.blocks;
    var body := Body(SoftLink, [], 0, 0, 0, 0, PathField(path, PathCapacity(m.vol.f)));
    PathReadsBack(path, PathCapacity(m.vol.f));
    NewLinkHangs(e, prep.value, dir, name, comment, meta, body);
    r := Emit(m, dir, name, comment, meta, prep.value, body, NoteEdge(prep.value));
    CarriesOn(d, s, e, s, m.vol.src.blocks, m.shape);
    SoftlinkReads(m, prep.value.lba);
    Concluded(tree, m.Entries(), r, prep.value.lba, Fact(dir, name, SoftLink, meta.protection, meta.owner, comment, 0,
        path), m.vol.f);
  }

  /** What the directories say of a soft link is what reading it gives. */
  lemma SoftlinkReads(m: Mutator, h: Lba)
    requires m.Valid() && h in m.Entries() && m.Entries()[h].kind.SoftLink?
    ensures m.vol.ReadSoftlink(h) == Ok(m.Entries()[h].path)
  {
    hide Mutator.Ready, Orderly, Mutation.Kept, Rooted, UpToNul;
    EntryBlock(m, h);
  }

  /** A caller's idea of what a hard link should name: an entry of the tree, or no header
      of a file or a directory at all. */
  ghost predicate LinkTarget(m: Mutator, target: Lba)
    reads m`shape, m.vol.src
  {
    var d := m.vol.src.blocks;
    target in m.Entries() || !(target < |d| && d[target].Header? && (d[target].kind.File? || d[target].kind.Directory?))
  }

  function LinkKind(kind: Kind): Kind {
    if kind.File? then LinkFile else LinkDir
  }

  /** Block `lba` is a link to `target`, whose header was `t`: it goes on to what was the
      first link to it, and has its size if that is a file. */
  predicate JoinsLinks(d: Disk, lba: Lba, target: Lba, t: Block) {
    && lba < |d| && d[lba].Header? && t.Header?
    && d[lba].realEntry == target && d[lba].nextLink == t.nextLink && d[lba].size == if t.kind.File? then t.size else 0
  }

  lemma LinkSays(d: Disk, prep: Prepared, dir: Lba, name: Bytes, comment: Bytes, meta: Meta, body: Body, target: Lba,
          t: Block)
    requires Says(d, prep.lba, NewHeader(prep.lba, dir, name, comment, prep.note, 0, meta, body)) && t.Header?
    requires body.realEntry == target && body.nextLink == t.nextLink && body.size == if t.kind.File? then t.size else 0
    ensures JoinsLinks(d, prep.lba, target, t)
  {}

  /** Create a hard link to `target`, at the head of the chain of links to it. */
  method CreateHardlink(m: Mutator, dir: Lba, name: Bytes, comment: Bytes, meta: Meta, target: Lba)
          returns (r: Result<Lba, MutateError>)
    requires m.Valid() && m.Handle(dir) && LinkTarget(m, target)
    modifies m, m.vol.src, m.alloc
    ensures m.Valid() && m.BeganWith(old(m.vol.src.blocks), old(m.shape), old(m.vol.src.trail), {})
    ensures m.views <= {old(m.Entries()), m.Entries()}
    ensures if Linkable(old(m.Entries()), target)
            then Outcome(old(m.Entries()), m.Entries(), r,
                         Fact(dir, name, LinkKind(old(m.Entries())[target].kind), meta.protection, meta.owner, comment,
                             target, []), m.vol.f)
            else r.Err? && m.vol.src.blocks == old(m.vol.src.blocks) && m.Entries() == old(m.Entries())
    ensures !m.vol.f.dircache ==>
              (r.Ok? <==> old(Linkable(m.Entries(), target)
              && MayCreate(m, dir, name, comment, HeaderBlocks(m.vol.f, name, comment))))
    ensures r.Ok? && !m.vol.f.dircache ==>
              |m.alloc.Free()| + HeaderBlocks(m.vol.f, name, comment) == |old(m.alloc.Free())|
    ensures !m.vol.f.dircache && r.Err? ==>
              m.alloc.Free() == if old(Linkable(m.Entries(), target) && Nameable(m, dir, name, comment)) then {}
              else old(m.alloc.Free())
    ensures r.Ok? ==>
              target < |m.vol.src.blocks| && m.vol.src.blocks[target].Header?
              && m.vol.src.blocks[target].nextLink == r.value
    ensures r.Ok? ==>
              target < |old(m.vol.src.blocks)| && JoinsLinks(m.vol.src.blocks, r.value, target,
              old(m.vol.src.blocks)[target])
    ensures r.Ok? && m.vol.f.dircache ==> Mirrors(m.vol.src.blocks, m.vol.f, m.shape, dir)
    ensures Carries(old(m.vol.src.blocks), old(m.shape), m.vol.src.blocks, m.shape)
  {
    hide Mutator.Ready, Orderly, Mutation.Kept, Rooted, Absent, FreeOnDisk, Tree, Mutator.Hung, Mirrors, Mutator.Mine,
      Grown, Carries, IsFolder;
    m.Begin({});
    ghost var d, s, tree := m.vol.src.blocks, m.shape, m.Entries();
    CarriesItself(d, s);
    if target in m.Entries() { EntryBlock(m, target); }
    var t := m.vol.EntryAt(target);
    if t.Err? {
      return Err(Read(t.error));
    }
    if !t.value.kind.File? && !t.value.kind.Directory? {
      return Err(LinkTargetKind(target));
    }
    r := EnterLink(m, dir, name, comment, meta, target, t.value);
    if r.Ok? {
      ghost var e, now := m.vol.src.blocks, m.shape;
      HeadLinkChain(m, dir, target, r.value);
      LinkStays(e, m.vol.src.blocks, r.value, target, t.value);
      CarriesOn(d, s, e, now, m.vol.src.blocks, m.shape);
    }
  }

  lemma LinkStays(d: Disk, e: Disk, link: Lba, target: Lba, t: Block)
    requires JoinsLinks(d, link, target, t) && |e| == |d| && e[link] == d[link]
    ensures JoinsLinks(e, link, target, t)
  {}

  /** The link's own header, naming the target and what was the head of the chain of links
      to it. */
  method EnterLink(m: Mutator, dir: Lba, name: Bytes, comment: Bytes, meta: Meta, target: Lba, t: Block)
          returns (r: Result<Lba, MutateError>)
    requires m.Valid() && m.Handle(dir) && m.views == {m.Entries()} && t.Header?
    modifies m`live, m`shape, m`rank, m`views, m.vol.src, m.alloc
    ensures m.Valid() && m.views <= {old(m.Entries()), m.Entries()}
              && (r.Ok? ==> IsFolder(m.vol.src.blocks, m.shape, dir))
    ensures r.Ok? ==> JoinsLinks(m.vol.src.blocks, r.value, target, t)
    ensures Outcome(old(m.Entries()), m.Entries(), r, Fact(dir, name, LinkKind(t.kind), meta.protection, meta.owner,
              comment, target, []), m.vol.f)
    ensures !m.vol.f.dircache ==>
              (r.Ok? <==> old(MayCreate(m, dir, name, comment, HeaderBlocks(m.vol.f, name, comment))))
    ensures r.Ok? && !m.vol.f.dircache ==>
              |m.alloc.Free()| + HeaderBlocks(m.vol.f, name, comment) == |old(m.alloc.Free())|
    ensures !m.vol.f.dircache && r.Err? ==>
              m.alloc.Free() == if old(Nameable(m, dir, name, comment)) then {} else old(m.alloc.Free())
    ensures r.Ok? && m.vol.f.dircache ==> Mirrors(m.vol.src.blocks, m.vol.f, m.shape, dir)
    ensures Carries(old(m.vol.src.blocks), old(m.shape), m.vol.src.blocks, m.shape)
  {
    hide Mutator.Steady, Rooted, Absent, Tree, Mutator.Hung, Mirrors, Mutator.Mine, Carries, IsFolder;
    ghost var d, s, tree := m.vol.src.blocks, m.shape, m.Entries();
    CarriesItself(d, s);
    var prep := Prepare(m, dir, name, comment);
    if prep.Err? {
      return Err(prep.error);
    }
    ghost var e := m.vol.src.blocks;
    var body := Body(LinkKind(t.kind), [], 0, if t.kind.File? then t.size else 0, t.nextLink, target, []);
    NewLinkHangs(e, prep.value, dir, name, comment, meta, body);
    r := Emit(m, dir, name, comment, meta, prep.value, body, NoteEdge(prep.value));
    CarriesOn(d, s, e, s, m.vol.src.blocks, m.shape);
    LinkSays(m.vol.src.blocks, prep.value, dir, name, comment, meta, body, target, t);
    Concluded(tree, m.Entries(), r, prep.value.lba,
              Fact(dir, name, body.kind, meta.protection, meta.owner, comment, target, []), m.vol.f);
  }

  /** The target's own header is the head of the chain of links to it. */
  method HeadLinkChain(m: Mutator, dir: Lba, target: Lba, link: Lba)
    requires m.Valid() && target in m.Entries() && IsFolder(m.vol.src.blocks, m.shape, dir)
    requires m.vol.f.dircache ==> Mirrors(m.vol.src.blocks, m.vol.f, m.shape, dir)
    modifies m.vol.src
    ensures target < |m.vol.src.blocks| && m.vol.src.blocks[target].Header? && m.vol.src.blocks[target].nextLink == link
    ensures m.Valid() && m.Entries() == old(m.Entries())
              && Carries(old(m.vol.src.blocks), m.shape, m.vol.src.blocks, m.shape)
    ensures m.vol.f.dircache ==> Mirrors(m.vol.src.blocks, m.vol.f, m.shape, dir)
    ensures |m.vol.src.blocks| == |old(m.vol.src.blocks)|
    ensures link != target && link < |old(m.vol.src.blocks)| ==> m.vol.src.blocks[link] == old(m.vol.src.blocks)[link]
  {
    hide Mutator.Ready, Orderly, Mutation.Kept, Rooted, Tree, Mirrors, Grown, Carries, IsFolder;
    EntryBlock(m, target);
    m.RootFacts();
    ghost var e := m.vol.src.blocks;
    m.SetNextLink(target, link);
    if m.vol.f.dircache { LinkKeepsMirror(e, m.vol.f, m.shape, dir, target, link); }
  }

  predicate Linkable(tree: map<Lba, Fact>, target: Lba) {
    target in tree && (tree[target].kind.File? || tree[target].kind.Directory?)
  }

  lemma EntryBlock(m: Mutator, x: Lba)
    requires m.Steady() && x in m.Entries()
    ensures x < |m.vol.src.blocks| && m.vol.src.blocks[x].Header? && m.shape.Owns(x) && IsEntry(m.shape, x)
    ensures m.Entries()[x].kind == m.vol.src.blocks[x].kind
  {
    hide Mutator.Ready, Orderly, Mutation.Kept;
  }

  lemma NewLinkHangs(d: Disk, prep: Prepared, dir: Lba, name: Bytes, comment: Bytes, meta: Meta, body: Body)
    requires NoteWritten(d, prep, comment) && prep.lba < |d|
              && (body.kind.LinkFile? || body.kind.LinkDir? || body.kind.SoftLink?)
    ensures Mutator.Hung(d[prep.lba := NewHeader(prep.lba, dir, name, comment, prep.note, 0, meta, body)], prep.lba,
              NoteEdge(prep))
  {
    var b := NewHeader(prep.lba, dir, name, comment, prep.note, 0, meta, body);
    assert forall l :: At(b, l) == if l.Note? then prep.note else 0;
  }

  /** `y` is a new entry, the only difference, and its name was nobody's. */
  predicate Created(was: map<Lba, Fact>, now: map<Lba, Fact>, y: Lba, fact: Fact, intl: bool) {
    y !in was && now == was[y := fact] && Absent(was, intl, fact.dir, fact.name)
  }

  /** A create that succeeds has filed its entry. One that fails has left the directories
      as they were, unless it is only the cache that could not follow. */
  ghost predicate Outcome(was: map<Lba, Fact>, now: map<Lba, Fact>, r: Result<Lba, MutateError>, fact: Fact,
          f: Format) {
    && (r.Ok? ==> Created(was, now, r.value, fact, f.intl))
    && (r.Err? ==> now == was || (f.dircache && exists y :: Created(was, now, y, fact, f.intl)))
  }
}
