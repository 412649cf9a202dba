/**
 Creating a file with its contents: data and extension blocks first, the header after
 them, and last the write that names it.
 */
module Births {
  import opened Words
  import opened Disk
  import opened Allocation
  import opened Names
  import opened Forest
  import opened Directories
  import opened Dircache
  import opened Protocol
  import opened Reader
  import opened Steps
  import opened Mutation
  import opened Creation
  import opened Chains
  import opened Passes
  import opened Drafting
  import opened Editing
  import opened Survival
  import opened Edits

  // ---- Blocks nothing reaches yet -----------------------------------------------------------------

  /** A new file's blocks are being written: nothing else is, and all of them are ours. */
  ghost predicate Pouring(m: Mutator, d: Disk, own: set<Lba>, done: set<Lba>)
    reads m, m.alloc, m.vol.src
  {
    && m.Valid() && AllMine(m, own) && |m.vol.src.blocks| == |d|
    && forall x: Lba :: x < |d| && x !in done ==> m.vol.src.blocks[x] == d[x]
  }

  method PourBlock(m: Mutator, x: Lba, b: Block, ghost d: Disk, ghost own: set<Lba>, ghost done: set<Lba>)
    requires Pouring(m, d, own, done) && x in own && x in done
    modifies m.vol.src
    ensures Pouring(m, d, own, done) && m.Entries() == old(m.Entries())
    ensures 0 < x < |d| && m.vol.src.blocks == old(m.vol.src.blocks)[x := b]
    ensures Carries(old(m.vol.src.blocks), m.shape, m.vol.src.blocks, m.shape)
  {
    hide Mutator.Ready, Orderly, Mutation.Kept, Rooted, Tree, Carries, Mutator.Unused, FreeOnDisk;
    m.SameLength();
    m.MineFacts(x);
    m.PutLoose(x, b);
  }

  /** The first `n` data blocks are in place. */
  ghost predicate Poured(e: Disk, f: Format, h: Lba, data: Bytes, blocks: seq<Lba>, n: nat) {
    n <= |blocks| && forall k :: 0 <= k < n ==> Delivers(e, f.ffs, h, k, blocks[k], Chunk(data, f.payload, k))
  }

  lemma PouredOneMore(e: Disk, f: Format, h: Lba, data: Bytes, blocks: seq<Lba>, n: nat, next: Lba)
    requires Poured(e, f, h, data, blocks, n) && n < |blocks| && NoRepeats(blocks) && blocks[n] < |e|
    ensures Poured(e[blocks[n] := DataBlock(f, h, n, Chunk(data, f.payload, n), next)], f, h, data, blocks, n + 1)
  {
    hide Chunk;
    var c := e[blocks[n] := DataBlock(f, h, n, Chunk(data, f.payload, n), next)];
    forall k | 0 <= k <= n
      ensures Delivers(c, f.ffs, h, k, blocks[k], Chunk(data, f.payload, k))
    {
      if k < n {
        assert Delivers(e, f.ffs, h, k, blocks[k], Chunk(data, f.payload, k));
      } else {
        DataBlockDelivers(e, f, h, n, Chunk(data, f.payload, n), next, blocks[n]);
      }
    }
  }

  method Pour(m: Mutator, h: Lba, data: Bytes, blocks: seq<Lba>, ghost d: Disk, ghost own: set<Lba>,
          ghost done: set<Lba>)
    requires Pouring(m, d, own, done) && NoRepeats(blocks) && forall x: Lba :: x in blocks ==> x in own && x in done
    modifies m.vol.src
    ensures Pouring(m, d, own, done) && m.Entries() == old(m.Entries())
    ensures Poured(m.vol.src.blocks, m.vol.f, h, data, blocks, |blocks|)
    ensures Carries(old(m.vol.src.blocks), m.shape, m.vol.src.blocks, m.shape)
  {
    hide Pouring, Tree, Carries, DataBlock, Chunk, NoRepeats, Poured, NextIn;
    NothingPoured(m.vol.src.blocks, m.vol.f, h, data, blocks);
    CarriesItself(m.vol.src.blocks, m.shape);
    var i := 0;
    while i < |blocks|
      invariant 0 <= i <= |blocks| && Pouring(m, d, own, done) && m.Entries() == old(m.Entries())
      invariant Poured(m.vol.src.blocks, m.vol.f, h, data, blocks, i)
      invariant Carries(old(m.vol.src.blocks), m.shape, m.vol.src.blocks, m.shape)
    {
      ghost var e := m.vol.src.blocks;
      assert blocks[i] in blocks;
      SameSize(m, d, own, done);
      PourBlock(m, blocks[i], DataBlock(m.vol.f, h, i, Chunk(data, m.vol.f.payload, i), NextIn(blocks, i, 0)), d, own,
          done);
      PouredOneMore(e, m.vol.f, h, data, blocks, i, NextIn(blocks, i, 0));
      CarriesOn(old(m.vol.src.blocks), m.shape, e, m.shape, m.vol.src.blocks, m.shape);
      i := i + 1;
    }
  }

  lemma NothingPoured(e: Disk, f: Format, h: Lba, data: Bytes, blocks: seq<Lba>)
    ensures Poured(e, f, h, data, blocks, 0)
  {}

  lemma SameSize(m: Mutator, d: Disk, own: set<Lba>, done: set<Lba>)
    requires Pouring(m, d, own, done)
    ensures |m.vol.src.blocks| == |d|
  {
    hide Mutator.Valid, AllMine;
  }

  // ---- Extension blocks, first one first ---------------------------------------------------------------

  /** What extension block `j` lists. */
  function Listed(blocks: seq<Lba>, slots: nat, j: nat): seq<Lba> {
    var rest := Rest(blocks, slots, j);
    rest[..Min(slots, |rest|)]
  }

  predicate ExtAt(e: Disk, slots: nat, h: Lba, blocks: seq<Lba>, exts: seq<Lba>, j: nat)
    requires j < |exts|
  {
    0 < exts[j] < |e| && e[exts[j]] == List(exts[j], h, Listed(blocks, slots, j), NextIn(exts, j, 0))
  }

  ghost predicate ExtsTo(e: Disk, slots: nat, h: Lba, blocks: seq<Lba>, exts: seq<Lba>, n: nat) {
    n <= |exts| && forall j :: 0 <= j < n ==> ExtAt(e, slots, h, blocks, exts, j)
  }

  lemma {:induction false} AllExtsLaid(e: Disk, slots: nat, h: Lba, blocks: seq<Lba>, exts: seq<Lba>, k: nat)
    requires slots > 0 && |exts| == ExtCount(|blocks|, slots) && k <= |exts|
              && ExtsTo(e, slots, h, blocks, exts, |exts|)
    ensures LaidOut(e, slots, h, exts[k..], Rest(blocks, slots, k))
    decreases |exts| - k
  {
    GroupEnds(|blocks|, slots, k);
    hide GroupEnd, ExtCount;
    if k < |exts| {
      AllExtsLaid(e, slots, h, blocks, exts, k + 1);
      assert ExtAt(e, slots, h, blocks, exts, k);
      var rest := Rest(blocks, slots, k);
      assert exts[k..][1..] == exts[k + 1..] && First(exts[k + 1..]) == NextIn(exts, k, 0);
      assert rest[Min(slots, |rest|)..] == Rest(blocks, slots, k + 1);
    } else {
      assert Rest(blocks, slots, k) == [];
    }
  }

  method PourExts(m: Mutator, h: Lba, blocks: seq<Lba>, exts: seq<Lba>, ghost d: Disk, ghost own: set<Lba>,
          ghost done: set<Lba>, ghost data: Bytes)
    requires Pouring(m, d, own, done) && m.vol.f.slots > 0 && |exts| == ExtCount(|blocks|, m.vol.f.slots)
    requires NoRepeats(blocks + exts) && forall x: Lba :: x in exts ==> x in own && x in done
    requires Poured(m.vol.src.blocks, m.vol.f, h, data, blocks, |blocks|)
    modifies m.vol.src
    ensures Pouring(m, d, own, done) && m.Entries() == old(m.Entries())
    ensures Poured(m.vol.src.blocks, m.vol.f, h, data, blocks, |blocks|)
    ensures LaidOut(m.vol.src.blocks, m.vol.f.slots, h, exts, blocks[Min(m.vol.f.slots, |blocks|)..])
    ensures Carries(old(m.vol.src.blocks), m.shape, m.vol.src.blocks, m.shape)
  {
    hide Pouring, Tree, Carries, NoRepeats, Poured, NextIn, ExtCount, GroupEnd, LaidOut, Rest, ExtAt, Listed, ExtsTo;
    NoExtsYet(m.vol.src.blocks, m.vol.f.slots, h, blocks, exts);
    CarriesItself(m.vol.src.blocks, m.shape);
    var slots := m.vol.f.slots;
    var k := 0;
    while k < |exts|
      invariant 0 <= k <= |exts| && Pouring(m, d, own, done) && m.Entries() == old(m.Entries())
      invariant Poured(m.vol.src.blocks, m.vol.f, h, data, blocks, |blocks|)
                && ExtsTo(m.vol.src.blocks, slots, h, blocks, exts, k)
      invariant Carries(old(m.vol.src.blocks), m.shape, m.vol.src.blocks, m.shape)
    {
      ghost var e := m.vol.src.blocks;
      assert exts[k] in exts;
      SameSize(m, d, own, done);
      var list := ListFor(blocks, slots, k);
      PourBlock(m, exts[k], List(exts[k], h, list, NextIn(exts, k, 0)), d, own, done);
      ExtPoured(e, m.vol.f, h, data, blocks, exts, k);
      CarriesOn(old(m.vol.src.blocks), m.shape, e, m.shape, m.vol.src.blocks, m.shape);
      k := k + 1;
    }
    AllExtsLaid(m.vol.src.blocks, slots, h, blocks, exts, 0);
    RestAll(blocks, slots);
    assert exts[0..] == exts;
  }

  lemma NoExtsYet(e: Disk, slots: nat, h: Lba, blocks: seq<Lba>, exts: seq<Lba>)
    ensures ExtsTo(e, slots, h, blocks, exts, 0)
  {}

  /** The pointers of extension block `k`. */
  method ListFor(blocks: seq<Lba>, slots: nat, k: nat) returns (list: seq<Lba>)
    requires slots > 0 && k < ExtCount(|blocks|, slots)
    ensures list == Listed(blocks, slots, k)
  {
    hide ExtCount, Listed;
    ListedIs(blocks, slots, k);
    var first := slots + k * slots;
    var count := Min(slots, |blocks| - first);
    list := blocks[first..first + count];
  }

  lemma RestAll(blocks: seq<Lba>, slots: nat)
    requires slots > 0
    ensures Rest(blocks, slots, 0) == blocks[Min(slots, |blocks|)..]
  {
    GroupEnds(|blocks|, slots, 0);
  }

  lemma ListedIs(blocks: seq<Lba>, slots: nat, k: nat)
    requires slots > 0 && k < ExtCount(|blocks|, slots)
    ensures slots + k * slots < |blocks|
    ensures Listed(blocks, slots, k) == blocks[slots + k * slots..slots + k * slots + Min(slots,
              |blocks| - (slots + k * slots))]
  {
    GroupEnds(|blocks|, slots, k);
    hide GroupEnd, ExtCount;
    var first := GroupEnd(k, slots);
    assert blocks[first..][..Min(slots, |blocks| - first)] == blocks[first..first + Min(slots, |blocks| - first)];
  }

  lemma ExtPoured(e: Disk, f: Format, h: Lba, data: Bytes, blocks: seq<Lba>, exts: seq<Lba>, k: nat)
    requires k < |exts| && 0 < exts[k] < |e| && NoRepeats(blocks + exts)
    requires Poured(e, f, h, data, blocks, |blocks|) && ExtsTo(e, f.slots, h, blocks, exts, k)
    ensures var c := e[exts[k] := List(exts[k], h, Listed(blocks, f.slots, k), NextIn(exts, k, 0))];
            Poured(c, f, h, data, blocks, |blocks|) && ExtsTo(c, f.slots, h, blocks, exts, k + 1)
  {
    hide Chunk, Listed, NextIn;
    var all := blocks + exts;
    var c := e[exts[k] := List(exts[k], h, Listed(blocks, f.slots, k), NextIn(exts, k, 0))];
    forall i | 0 <= i < |blocks|
      ensures Delivers(c, f.ffs, h, i, blocks[i], Chunk(data, f.payload, i))
    {
      assert all[i] != all[|blocks| + k];
      assert Delivers(e, f.ffs, h, i, blocks[i], Chunk(data, f.payload, i));
    }
    forall j | 0 <= j <= k
      ensures ExtAt(c, f.slots, h, blocks, exts, j)
    {
      if j < k {
        assert all[|blocks| + j] != all[|blocks| + k];
        assert ExtAt(e, f.slots, h, blocks, exts, j);
      }
    }
  }

  // ---- The header -------------------------------------------------------------------------------------

  function FileBody(slots: nat, blocks: seq<Lba>, exts: seq<Lba>, size: nat): Body {
    Body(File, blocks[..Min(slots, |blocks|)], First(exts), size, 0, 0, [])
  }

  function BirthEdges(prep: Prepared, slots: nat, blocks: seq<Lba>, exts: seq<Lba>): map<Lba, Edge> {
    FileEdges(prep.lba, slots, blocks, exts) + NoteEdge(prep)
  }

  lemma FileIsHung(e: Disk, prep: Prepared, dir: Lba, name: Bytes, comment: Bytes, meta: Meta, slots: nat,
          blocks: seq<Lba>, exts: seq<Lba>, size: nat)
    requires NoteWritten(e, prep, comment) && prep.lba < |e|
              && LaidOut(e, slots, prep.lba, exts, blocks[Min(slots, |blocks|)..])
    requires NoRepeats(blocks) && NoRepeats(exts) && AllContent(e, blocks) && prep.lba !in blocks && prep.lba !in exts
    requires prep.note != 0 ==> prep.note !in blocks && prep.note !in exts
    ensures var hdr := NewHeader(prep.lba, dir, name, comment, prep.note, 0, meta, FileBody(slots, blocks, exts, size));
            Mutator.Hung(e[prep.lba := hdr], prep.lba, BirthEdges(prep, slots, blocks, exts))
    ensures prep.lba !in BirthEdges(prep, slots, blocks, exts)
    ensures forall y: Lba :: y in BirthEdges(prep, slots, blocks, exts) ==>
              y in blocks || y in exts || (y == prep.note && y != 0)
    ensures forall y: Lba :: y in blocks || y in exts ==> y in BirthEdges(prep, slots, blocks, exts)
  {
    var own := FileEdges(prep.lba, slots, blocks, exts);
    FileHangs(e, prep.lba, slots, prep.lba, blocks, exts);
    ExtsAreLists(e, slots, prep.lba, exts, blocks[Min(slots, |blocks|)..]);
    var hdr := NewHeader(prep.lba, dir, name, comment, prep.note, 0, meta, FileBody(slots, blocks, exts, size));
    NewPointers(hdr, prep.lba, slots, blocks, exts, own);
    hide FileEdges, LaidOut, NoRepeats, AllContent;
    OwnKeys(e, own, blocks, exts);
    NoteJoins(e, prep, comment, hdr, own);
  }

  lemma OwnKeys(e: Disk, own: map<Lba, Edge>, blocks: seq<Lba>, exts: seq<Lba>)
    requires Hanging(e, own, SetOf(blocks) + SetOf(exts))
    ensures forall y: Lba :: y in own <==> y in blocks || y in exts
  {
    hide At, Fits;
    forall y: Lba
      ensures y in own <==> y in blocks || y in exts
    {
      assert y in own.Keys <==> y in SetOf(blocks) + SetOf(exts);
    }
  }

  /** A file's header with its data, and its comment if that has a block of its own. */
  lemma NoteJoins(e: Disk, prep: Prepared, comment: Bytes, hdr: Block, own: map<Lba, Edge>)
    requires Hanging(e, own, own.Keys) && prep.lba < |e| && NoteWritten(e, prep, comment) && IsFile(hdr)
              && hdr.note == prep.note && hdr.chain == 0
    requires prep.lba !in own && (prep.note != 0 ==> prep.note !in own)
    requires forall l :: At(hdr, l) != 0 && (l.Datum? || l.Ext?) ==>
              At(hdr, l) in own && own[At(hdr, l)] == Edge(prep.lba, l)
    ensures Mutator.Hung(e[prep.lba := hdr], prep.lba, own + NoteEdge(prep))
  {
    var mine, c := own + NoteEdge(prep), e[prep.lba := hdr];
    forall y: Lba | y in mine
      ensures 0 < y < |c| && Fits(c[y], mine[y].link) && !mine[y].link.Slot? && !mine[y].link.Chain?
    {
      if y != prep.note || prep.note == 0 { assert y in own && mine[y] == own[y]; }
    }
    forall y: Lba, l | y in mine && y < |c| && At(c[y], l) != 0
      ensures At(c[y], l) in mine && mine[At(c[y], l)] == Edge(y, l)
    {
      if y in own { assert At(e[y], l) in own; }
    }
    forall l | At(hdr, l) != 0 && !l.Chain?
      ensures At(hdr, l) in mine && mine[At(hdr, l)] == Edge(prep.lba, l)
    {
      assert l.Datum? || l.Ext? || l.Note?;
    }
  }

  /** Once it is filed, whoever opens the file reads what it was created with. */
  lemma BornFileReads(e: Disk, f: Format, h: Lba, b: Block, data: Bytes, blocks: seq<Lba>, exts: seq<Lba>, d: Disk)
    requires f.payload > 0 && f.slots > 0 && |blocks| == CeilDiv(|data|, f.payload) && h < |e| == |d|
    requires Poured(d, f, h, data, blocks, |blocks|) && LaidOut(d, f.slots, h, exts, blocks[Min(f.slots, |blocks|)..])
    requires NoRepeats(exts) && h !in exts && 0 !in blocks
    requires IsFile(b) && b.table == blocks[..Min(f.slots, |blocks|)] && b.ext == First(exts) && b.size == |data|
              && KeepsFile(b, e[h])
    requires forall y: Lba :: y in blocks || y in exts ==> y < |e| && e[y] == d[y]
    ensures Stored(e, f, h, data)
  {
    LaidOutFramed(d, f.slots, h, exts, blocks[Min(f.slots, |blocks|)..], e);
    HeaderFirst(h, exts);
    IsCanonical(e, f, h, |data|, blocks, exts);
    var c := FileChain(h, |data|, blocks, exts);
    hide Canonical, LaidOut, CeilDiv, Chunk;
    forall k | 0 <= k < |blocks|
      ensures Delivers(e, f.ffs, h, k, blocks[k], Chunk(data, f.payload, k))
    {
      assert blocks[k] in blocks && Delivers(d, f.ffs, h, k, blocks[k], Chunk(data, f.payload, k));
    }
    StoredNow(e, f, c, data);
  }

  // ---- Creating a file ------------------------------------------------------------------------------------

  /** The length as its 32-bit field keeps it. */
  function Low32(n: nat): nat {
    n % 0x1_0000_0000
  }

  lemma LengthFits(n: nat)
    ensures Low32(n) == n <==> n <= MAX_SIZE
  {}

  /** The format of an FFS volume of 512-byte blocks. */
  const SHORT_BLOCKS := Format(true, false, false, false, 72, 512, 488)

  /** On an FFS volume of 512-byte blocks 8505117 free blocks are enough for a file one
      byte longer than its header can say: it is created, and its length recorded as 0. */
  lemma OneByteTooLong()
    ensures Footprint(SHORT_BLOCKS, MAX_SIZE + 1) + 1 == 8505117 && Low32(MAX_SIZE + 1) == 0
  {
    var size := MAX_SIZE + 1;
    CeilDivIs(size, 512, 8388608);
    CeilDivIs(8388608 - 72, 72, 116508);
  }

  lemma CeilDivIs(n: nat, p: nat, q: nat)
    requires p > 0 && q > 0 && (q - 1) * p < n <= q * p
    ensures CeilDiv(n, p) == q
  {
    var k := CeilDiv(n, p);
    hide CeilDiv;
    if k < q { MulMonotone(k, q - 1, p); }
    if q < k { MulMonotone(q, k - 1, p); }
  }

  /** Draw and write everything but the header. */
  method Conceive(m: Mutator, prep: Prepared, data: Bytes, comment: Bytes)
          returns (r: Result<(seq<Lba>, seq<Lba>), MutateError>)
    requires m.Valid() && m.vol.f.payload > 0 && m.vol.f.slots > 0
    requires m.Mine(prep.lba) && (prep.note != 0 ==> m.Mine(prep.note)) && NoteWritten(m.vol.src.blocks, prep, comment)
    modifies m.vol.src, m.alloc
    ensures m.Valid() && m.Entries() == old(m.Entries()) && m.Mine(prep.lba)
              && NoteWritten(m.vol.src.blocks, prep, comment)
    ensures r.Ok? <==>
              CeilDiv(|data|, m.vol.f.payload) + ExtCount(CeilDiv(|data|, m.vol.f.payload),
              m.vol.f.slots) <= |old(m.alloc.Free())|
    ensures r.Err? ==> m.alloc.Free() == {}
    ensures r.Ok? ==> |m.alloc.Free()| + Footprint(m.vol.f, |data|) == |old(m.alloc.Free())|
    ensures Carries(old(m.vol.src.blocks), m.shape, m.vol.src.blocks, m.shape)
              && |m.vol.src.blocks| == |old(m.vol.src.blocks)|
    ensures prep.note != 0 ==> m.Mine(prep.note)
    ensures r.Ok? ==> var (blocks, exts) := r.value;
              && |blocks| == CeilDiv(|data|, m.vol.f.payload) && |exts| == ExtCount(|blocks|, m.vol.f.slots)
                  && NoRepeats(blocks + exts)
              && (forall y: Lba :: y in blocks || y in exts ==> m.Mine(y) && y != prep.lba && y != prep.note)
              && Poured(m.vol.src.blocks, m.vol.f, prep.lba, data, blocks, |blocks|)
              && LaidOut(m.vol.src.blocks, m.vol.f.slots, prep.lba, exts, blocks[Min(m.vol.f.slots, |blocks|)..])
    ensures r.Ok? && m.layoutPolicy ==>
              exists out, all :: InFetchOrder(out, m.vol.f.slots) && Dealt(out, all, r.value.0, r.value.1)
  {
    hide Mutator.Steady, Rooted, Mutator.Mine, CeilDiv, ExtCount, Carries, Tree, Poured, LaidOut, InFetchOrder, Dealt,
      NoRepeats, SetOf;
    var n := CeilDiv(|data|, m.vol.f.payload);
    InHand(m, prep);
    var drawn := DrawPlaces(m, m.layoutPolicy, prep.lba, n);
    if drawn.Err? {
      return Err(drawn.error);
    }
    ghost var d := m.vol.src.blocks;
    var (blocks, _, exts) := drawn.value;
    assert (blocks + []) + exts == blocks + exts;
    PourAll(m, prep, blocks, exts, data, comment);
    CarriesOn(old(m.vol.src.blocks), m.shape, d, m.shape, m.vol.src.blocks, m.shape);
    r := Ok((blocks, exts));
  }

  /** Write the data blocks and the extension blocks, all of them ours. */
  method PourAll(m: Mutator, prep: Prepared, blocks: seq<Lba>, exts: seq<Lba>, data: Bytes, ghost comment: Bytes)
    requires m.Valid() && m.vol.f.payload > 0 && m.vol.f.slots > 0
    requires m.Mine(prep.lba) && (prep.note != 0 ==> m.Mine(prep.note)) && NoteWritten(m.vol.src.blocks, prep, comment)
    requires |exts| == ExtCount(|blocks|, m.vol.f.slots) && NoRepeats(blocks + exts)
              && forall x: Lba :: x in SetOf(blocks + exts) ==> m.Mine(x)
    requires prep.lba !in SetOf(blocks + exts) && (prep.note != 0 ==> prep.note !in SetOf(blocks + exts))
    modifies m.vol.src
    ensures m.Valid() && m.Entries() == old(m.Entries()) && |m.vol.src.blocks| == |old(m.vol.src.blocks)|
    ensures m.Mine(prep.lba) && (prep.note != 0 ==> m.Mine(prep.note)) && NoteWritten(m.vol.src.blocks, prep, comment)
    ensures forall y: Lba :: y in blocks || y in exts ==> m.Mine(y) && y != prep.lba && y != prep.note
    ensures Poured(m.vol.src.blocks, m.vol.f, prep.lba, data, blocks, |blocks|)
    ensures LaidOut(m.vol.src.blocks, m.vol.f.slots, prep.lba, exts, blocks[Min(m.vol.f.slots, |blocks|)..])
    ensures Carries(old(m.vol.src.blocks), m.shape, m.vol.src.blocks, m.shape)
  {
    hide Mutator.Valid, Mutator.Mine, ExtCount, Carries, Tree, Poured, LaidOut, NoRepeats, SetOf, Pouring, NoteWritten;
    ghost var d, done := m.vol.src.blocks, SetOf(blocks + exts);
    ghost var own := done + OwnOf(prep);
    ZeroIsNotOurs(m, done);
    PouringStarts(m, prep, blocks, exts);
    Pour(m, prep.lba, data, blocks, d, own, done);
    ghost var e := m.vol.src.blocks;
    PourExts(m, prep.lba, blocks, exts, d, own, done, data);
    CarriesOn(d, m.shape, e, m.shape, m.vol.src.blocks, m.shape);
    PouringEnds(m, d, prep, blocks, exts, comment);
  }

  function OwnOf(prep: Prepared): set<Lba> {
    {prep.lba} + NoteSet(prep.note)
  }

  lemma InHand(m: Mutator, prep: Prepared)
    requires m.Mine(prep.lba) && (prep.note != 0 ==> m.Mine(prep.note))
    ensures prep.lba !in m.alloc.Free() && (prep.note != 0 ==> prep.note !in m.alloc.Free()) && prep.lba != 0
  {
    m.MinesDiffer(prep.lba);
    m.MineFacts(prep.lba);
    if prep.note != 0 { m.MinesDiffer(prep.note); }
  }

  lemma ZeroIsNotOurs(m: Mutator, own: set<Lba>)
    requires forall x: Lba :: x in own ==> m.Mine(x)
    ensures 0 !in own
  {
    hide FreeOnDisk;
  }

  lemma PouringStarts(m: Mutator, prep: Prepared, blocks: seq<Lba>, exts: seq<Lba>)
    requires m.Valid() && (forall x: Lba :: x in SetOf(blocks + exts) ==> m.Mine(x)) && m.Mine(prep.lba)
              && (prep.note != 0 ==> m.Mine(prep.note))
    requires NoRepeats(blocks + exts)
    ensures Pouring(m, m.vol.src.blocks, SetOf(blocks + exts) + OwnOf(prep), SetOf(blocks + exts))
    ensures NoRepeats(blocks) && forall x: Lba :: x in blocks || x in exts ==> x in SetOf(blocks + exts)
  {
    hide Mutator.Valid, Mutator.Mine, NoRepeats;
    BothApart(blocks, exts);
    var all := blocks + exts;
    forall x: Lba | x in blocks || x in exts
      ensures x in SetOf(all)
    {
      assert x in all;
    }
  }

  lemma PouringEnds(m: Mutator, d: Disk, prep: Prepared, blocks: seq<Lba>, exts: seq<Lba>, comment: Bytes)
    requires Pouring(m, d, SetOf(blocks + exts) + OwnOf(prep), SetOf(blocks + exts))
    requires prep.lba !in SetOf(blocks + exts) && prep.note !in SetOf(blocks + exts) && NoteWritten(d, prep, comment)
    requires forall x: Lba :: x in blocks || x in exts ==> x in SetOf(blocks + exts)
    ensures m.Valid() && m.Mine(prep.lba) && (prep.note != 0 ==> m.Mine(prep.note))
              && NoteWritten(m.vol.src.blocks, prep, comment)
    ensures forall y: Lba :: y in blocks || y in exts ==> m.Mine(y) && y != prep.lba && y != prep.note
    ensures |m.vol.src.blocks| == |d|
  {
    hide Mutator.Valid, Mutator.Mine, SetOf;
  }

  /** In every state from `from` on either the directories are as they were, or they have
      the new file and it is whole. */
  ghost predicate BornWhole(trail: seq<Disk>, from: nat, f: Format, root: Lba, was: map<Lba, Fact>, now: map<Lba,
          Fact>, h: Lba, data: Bytes)
    requires f.payload > 0
  {
    forall i :: from <= i < |trail| ==> BornIn(trail[i], f, root, was, now, h, data)
  }

  ghost predicate BornIn(e: Disk, f: Format, root: Lba, was: map<Lba, Fact>, now: map<Lba, Fact>, h: Lba, data: Bytes)
    requires f.payload > 0
  {
    Shows(e, f, root, was) || (Shows(e, f, root, now) && (|data| <= MAX_SIZE ==> Stored(e, f, h, data)))
  }

  lemma NotBornYet(trail: seq<Disk>, from: nat, f: Format, root: Lba, was: map<Lba, Fact>, now: map<Lba, Fact>, h: Lba,
          data: Bytes)
    requires f.payload > 0 && Shown(trail, from, f, root, {was})
    ensures BornWhole(trail, from, f, root, was, now, h, data)
  {
    hide Shows, Stored;
    forall i | from <= i < |trail|
      ensures BornIn(trail[i], f, root, was, now, h, data)
    {
      assert ShowsOne(trail[i], f, root, {was});
    }
  }

  /** The header and the blocks of a file whose length fits its field read as `data`; one
      whose length does not is no file any reader accepts as `data`. */
  ghost predicate Laid(e: Disk, f: Format, t: Shape, h: Lba, b: Block, data: Bytes)
    requires f.payload > 0
  {
    && t.Owns(h) && h < |e| && IsFile(b) && b.size == Low32(|data|) && KeepsFile(b, e[h])
    && (|data| <= MAX_SIZE ==> Stored(e, f, h, data))
  }

  lemma LaidIsRead(e: Disk, f: Format, t: Shape, h: Lba, b: Block, data: Bytes)
    requires f.payload > 0 && Laid(e, f, t, h, b, data)
    ensures FileIs(e, f, h, data) <==> |data| <= MAX_SIZE
    ensures Stored(e, f, h, data) <==> |data| <= MAX_SIZE
  {
    LengthFits(|data|);
    if Stored(e, f, h, data) { StoredIsRead(e, f, h, data); }
    hide Walks, CeilDiv, Chunk, LaidOut, Stored;
  }

  /** Write the header and name it. */
  method Deliver(m: Mutator, dir: Lba, name: Bytes, comment: Bytes, meta: Meta, prep: Prepared, blocks: seq<Lba>,
          exts: seq<Lba>, ghost data: Bytes, size: nat)
    returns (ghost before: seq<Disk>, ghost hdr: Block)
    requires m.Valid() && m.vol.f.payload > 0 && m.vol.f.slots > 0 && size == Low32(|data|)
    requires IsFolder(m.vol.src.blocks, m.shape, dir) && Absent(m.Entries(), m.vol.f.intl, dir, name)
    requires m.Mine(prep.lba) && NoteWritten(m.vol.src.blocks, prep, comment) && (prep.note != 0 ==> m.Mine(prep.note))
    requires |blocks| == CeilDiv(|data|, m.vol.f.payload) && NoRepeats(blocks + exts)
    requires forall y: Lba :: y in blocks || y in exts ==> m.Mine(y) && y != prep.lba && y != prep.note
    requires Poured(m.vol.src.blocks, m.vol.f, prep.lba, data, blocks, |blocks|)
    requires LaidOut(m.vol.src.blocks, m.vol.f.slots, prep.lba, exts, blocks[Min(m.vol.f.slots, |blocks|)..])
    modifies m`live, m`shape, m`rank, m`views, m.vol.src
    ensures m.Valid() && IsFolder(m.vol.src.blocks, m.shape, dir) && m.views == old(m.views) + {m.Entries()}
    ensures prep.lba !in old(m.Entries()) && !old(m.shape).Owns(prep.lba)
    ensures m.Entries() == old(m.Entries())[prep.lba :=
              Fact(dir, name, File, meta.protection, meta.owner, comment, 0, [])]
    ensures Carries(old(m.vol.src.blocks), old(m.shape), m.vol.src.blocks, m.shape)
    ensures old(m.vol.src.trail) <= before && m.vol.src.trail == before + [m.vol.src.blocks]
    ensures Shown(before, |m.past|, m.vol.f, m.vol.root, old(m.views))
              && Laid(m.vol.src.blocks, m.vol.f, m.shape, prep.lba, hdr, data)
  {
    hide Mutator.Ready, Orderly, Rooted, Mutation.Kept, Mutator.Mine, CeilDiv, Carries, Tree, LaidOut, NoRepeats,
      Shown, IsFolder, Absent, Mutator.Hung,
      BirthEdges, NewHeader, Stored, Poured, FileIs;
    ghost var d, slots := m.vol.src.blocks, m.vol.f.slots;
    ghost var mine := BirthEdges(prep, slots, blocks, exts);
    var body := FileBody(m.vol.f.slots, blocks, exts, size);
    ReadyToDeliver(m, dir, name, comment, meta, prep, blocks, exts, data, size);
    hdr := NewHeader(prep.lba, dir, name, comment, prep.note, 0, meta, body);
    NewHeaderIs(prep.lba, dir, name, comment, prep.note, 0, meta, body);
    FileHeaderIs(prep, dir, name, comment, meta, body);
    before := FileEntry(m, dir, name, comment, meta, prep, body, mine);
    LengthFits(|data|);
    CarriesSize(d, old(m.shape), m.vol.src.blocks, m.shape);
    if |data| <= MAX_SIZE {
      BornFileReads(m.vol.src.blocks, m.vol.f, prep.lba, hdr, data, blocks, exts, d);
    }
  }

  /** Everything the header will point to is there and ours. */
  lemma ReadyToDeliver(m: Mutator, dir: Lba, name: Bytes, comment: Bytes, meta: Meta, prep: Prepared,
          blocks: seq<Lba>, exts: seq<Lba>, data: Bytes, size: nat)
    requires m.Valid() && m.Mine(prep.lba) && NoteWritten(m.vol.src.blocks, prep, comment)
              && (prep.note != 0 ==> m.Mine(prep.note))
    requires NoRepeats(blocks + exts) && forall y: Lba :: y in blocks || y in exts ==>
              m.Mine(y) && y != prep.lba && y != prep.note
    requires Poured(m.vol.src.blocks, m.vol.f, prep.lba, data, blocks, |blocks|)
    requires LaidOut(m.vol.src.blocks, m.vol.f.slots, prep.lba, exts, blocks[Min(m.vol.f.slots, |blocks|)..])
    ensures prep.lba < |m.vol.src.blocks| && NoRepeats(exts) && 0 !in blocks && !m.shape.Owns(prep.lba)
    ensures var mine := BirthEdges(prep, m.vol.f.slots, blocks, exts);
            && prep.lba !in mine && (forall y: Lba :: y in mine ==> m.Mine(y))
                && (forall y: Lba :: y in blocks || y in exts ==> y in mine)
            && Mutator.Hung(m.vol.src.blocks[prep.lba := NewHeader(prep.lba, dir, name, comment, prep.note, 0, meta,
                FileBody(m.vol.f.slots, blocks, exts, size))],
                            prep.lba, mine)
  {
    hide Mutator.Ready, Orderly, Rooted, Mutation.Kept, Mutator.Mine, LaidOut, NoRepeats, Mutator.Hung, BirthEdges,
      NewHeader, Poured;
    m.SameLength();
    m.MineFacts(prep.lba);
    BothApart(blocks, exts);
    PouredIsContent(m, prep.lba, data, blocks, exts);
    FileIsHung(m.vol.src.blocks, prep, dir, name, comment, meta, m.vol.f.slots, blocks, exts, size);
  }

  lemma CarriesSize(d: Disk, s: Shape, e: Disk, t: Shape)
    requires Carries(d, s, e, t)
    ensures |e| == |d|
  {}

  lemma FileHeaderIs(prep: Prepared, dir: Lba, name: Bytes, comment: Bytes, meta: Meta, body: Body)
    requires body.kind.File?
    ensures var b := NewHeader(prep.lba, dir, name, comment, prep.note, 0, meta, body);
            IsFile(b) && b.table == body.table && b.ext == body.ext && b.size == body.size
  {}

  lemma BothApart(a: seq<Lba>, b: seq<Lba>)
    requires NoRepeats(a + b)
    ensures NoRepeats(a) && NoRepeats(b)
  {
    var all := a + b;
    assert forall i :: 0 <= i < |a| ==> all[i] == a[i];
    assert forall i :: 0 <= i < |b| ==> all[|a| + i] == b[i];
  }

  lemma PouredIsContent(m: Mutator, h: Lba, data: Bytes, blocks: seq<Lba>, exts: seq<Lba>)
    requires Poured(m.vol.src.blocks, m.vol.f, h, data, blocks, |blocks|)
    requires forall y: Lba :: y in blocks || y in exts ==> m.Mine(y)
    ensures AllContent(m.vol.src.blocks, blocks) && 0 !in blocks
  {
    forall y: Lba | y in blocks
      ensures 0 < y < |m.vol.src.blocks| && IsContent(m.vol.src.blocks[y])
    {
      m.MineFacts(y);
      var k :| 0 <= k < |blocks| && blocks[k] == y;
      assert Delivers(m.vol.src.blocks, m.vol.f.ffs, h, k, blocks[k], Chunk(data, m.vol.f.payload, k));
    }
  }

  /** Create a file holding `data`. A crash leaves the directories as they were, or the
      whole file; and whoever opens it reads `data` unless `data` is longer than the
      32-bit length field of its header can say. */
  method CreateFile(m: Mutator, dir: Lba, name: Bytes, comment: Bytes, meta: Meta, data: Bytes)
          returns (r: Result<Lba, MutateError>, ghost h: Lba)
    requires m.Valid() && m.vol.f.payload > 0 && m.Handle(dir)
    modifies m, m.vol.src, m.alloc
    ensures m.Valid()
    ensures Outcome(old(m.Entries()), m.Entries(), r, Fact(dir, name, File, meta.protection, meta.owner, comment, 0,
              []), m.vol.f)
    ensures m.vol.f.slots > 0
    ensures !m.vol.f.dircache ==>
              (r.Ok? <==> old(MayCreate(m, dir, name, comment,
                  HeaderBlocks(m.vol.f, name, comment) + Footprint(m.vol.f, |data|))))
    ensures r.Ok? ==> r.value == h && (FileIs(m.vol.src.blocks, m.vol.f, h, data) <==> |data| <= MAX_SIZE)
    ensures |data| <= MAX_SIZE && h in m.Entries() ==> Stored(m.vol.src.blocks, m.vol.f, h, data)
    ensures StillThere(old(m.vol.src.blocks), m.vol.f, old(m.shape), 0, m.vol.src.blocks, m.shape)
    ensures r.Ok? && m.vol.f.dircache ==> Mirrors(m.vol.src.blocks, m.vol.f, m.shape, dir)
    ensures BornWhole(m.vol.src.trail, |old(m.vol.src.trail)|, m.vol.f, m.vol.root, old(m.Entries()), m.Entries(), h,
              data)
    ensures OthersRead(old(m.vol.src.blocks), m.vol.f, old(m.shape), h, m.vol.src.trail, |old(m.vol.src.trail)|)
    ensures !old(m.shape).Owns(h)
    ensures m.Entries() == old(m.Entries())
              || Created(old(m.Entries()), m.Entries(), h,
                  Fact(dir, name, File, meta.protection, meta.owner, comment, 0, []), m.vol.f.intl)
    ensures r.Ok? && !m.vol.f.dircache ==>
              |m.alloc.Free()| + HeaderBlocks(m.vol.f, name, comment) + Footprint(m.vol.f, |data|) ==
                  |old(m.alloc.Free())|
    ensures !m.vol.f.dircache && r.Err? ==>
              m.alloc.Free() == if old(Nameable(m, dir, name, comment)) then {} else old(m.alloc.Free())
    ensures old(m.vol.src.trail) <= m.vol.src.trail
  {
    hide Mutator.Ready, Orderly, Rooted, Mutation.Kept, Mutator.Mine, CeilDiv, Carries, Tree, LaidOut, NoRepeats,
      Shown, IsFolder, Absent, Mirrors, Outcome,
      Stored, Poured, OthersRead, StillThere, BornWhole, Began, Mutator.BeganWith, FileIs, ExtCount, Grown;
    ghost var d, s, rank, writes, tree := m.vol.src.blocks, m.shape, m.rank, m.vol.src.trail, m.Entries();
    h := 0;
    OrderlyNow(m);
    m.RootFacts();
    NobodyIsZero(d, s);
    m.Begin({});
    BeganHere(m, {});
    NothingYet(d, m.vol.f, s, 0, writes);
    CarriesItself(d, s);
    var prep := Prepare(m, dir, name, comment);
    if prep.Err? {
      NotAnEntryYet(m, 0);
      Unborn(m, d, s, rank, writes, tree, 0, data);
      FailedBirth(tree, prep.error, Fact(dir, name, File, meta.protection, meta.owner, comment, 0, []), m.vol.f);
      return Err(prep.error), 0;
    }
    h := prep.value.lba;
    r := Bear(m, dir, name, comment, meta, prep.value, data, d, s, rank, writes);
    NewcomerAside(d, m.vol.f, s, h, m.vol.src.blocks, m.shape);
  }

  /** The blocks, then the header and its name. */
  method Bear(m: Mutator, dir: Lba, name: Bytes, comment: Bytes, meta: Meta, prep: Prepared, data: Bytes,
          ghost d: Disk, ghost s: Shape, ghost rank: map<Lba, int>, ghost writes: seq<Disk>)
    returns (r: Result<Lba, MutateError>)
    requires m.Valid() && m.vol.f.payload > 0 && m.vol.f.slots > 0 && IsFolder(m.vol.src.blocks, m.shape, dir)
              && Absent(m.Entries(), m.vol.f.intl, dir, name)
    requires Began(m, d, s, rank, writes, {}) && m.views == {m.Entries()} && s == m.shape
              && Carries(d, s, m.vol.src.blocks, s)
    requires m.Mine(prep.lba) && NoteWritten(m.vol.src.blocks, prep, comment) && (prep.note != 0 ==> m.Mine(prep.note))
    modifies m, m.vol.src, m.alloc
    ensures m.Valid() && !s.Owns(prep.lba)
    ensures Outcome(old(m.Entries()), m.Entries(), r, Fact(dir, name, File, meta.protection, meta.owner, comment, 0,
              []), m.vol.f)
    ensures m.Entries() == old(m.Entries())
              || Created(old(m.Entries()), m.Entries(), prep.lba,
                  Fact(dir, name, File, meta.protection, meta.owner, comment, 0, []), m.vol.f.intl)
    ensures !m.vol.f.dircache ==> (r.Ok? <==> Footprint(m.vol.f, |data|) <= |old(m.alloc.Free())|)
    ensures !m.vol.f.dircache && r.Err? ==> m.alloc.Free() == {}
    ensures r.Ok? && !m.vol.f.dircache ==> |m.alloc.Free()| + Footprint(m.vol.f, |data|) == |old(m.alloc.Free())|
    ensures r.Ok? ==> r.value == prep.lba && (FileIs(m.vol.src.blocks, m.vol.f, prep.lba, data) <==> |data| <= MAX_SIZE)
    ensures |data| <= MAX_SIZE && prep.lba in m.Entries() ==> Stored(m.vol.src.blocks, m.vol.f, prep.lba, data)
    ensures r.Ok? && m.vol.f.dircache ==> Mirrors(m.vol.src.blocks, m.vol.f, m.shape, dir)
    ensures BornWhole(m.vol.src.trail, |writes|, m.vol.f, m.vol.root, old(m.Entries()), m.Entries(), prep.lba, data)
    ensures OthersRead(d, m.vol.f, s, prep.lba, m.vol.src.trail, |writes|)
              && StillThere(d, m.vol.f, s, prep.lba, m.vol.src.blocks, m.shape)
    ensures writes <= m.vol.src.trail
  {
    hide Mutator.Steady, Rooted, Mutator.Mine, CeilDiv, Carries, Tree, LaidOut, NoRepeats, Shown, IsFolder, Absent,
      Mirrors, Outcome, Created,
      Stored, Poured, OthersRead, StillThere, BornWhole, Began, Mutator.BeganWith, FileIs, ExtCount, Grown, NoteWritten;
    ghost var e, tree := m.vol.src.blocks, m.Entries();
    m.RootFacts();
    m.MineFacts(prep.lba);
    NotAnEntryYet(m, prep.lba);
    var made := Conceive(m, prep, data, comment);
    CarriesOn(d, s, e, s, m.vol.src.blocks, s);
    if made.Err? {
      Unborn(m, d, s, rank, writes, tree, prep.lba, data);
      FailedBirth(tree, made.error, Fact(dir, name, File, meta.protection, meta.owner, comment, 0, []), m.vol.f);
      return Err(made.error);
    }
    var (blocks, exts) := made.value;
    m.StillFolder(e, dir);
    r := Arrive(m, dir, name, comment, meta, prep, blocks, exts, data, d, s, rank, writes);
  }

  lemma NobodyIsZero(d: Disk, s: Shape)
    requires Grown(d, s)
    ensures !s.Owns(0)
  {
    if s.Owns(0) { OwnedInside(d, s, 0); }
  }

  /** A file that was not there is no exception among those that were. */
  lemma NewcomerAside(d: Disk, f: Format, s: Shape, h: Lba, e: Disk, t: Shape)
    requires f.payload > 0 && !s.Owns(h) && StillThere(d, f, s, h, e, t)
    ensures StillThere(d, f, s, 0, e, t)
  {
    hide FileIs, Stored;
  }

  lemma FailedBirth(tree: map<Lba, Fact>, e: MutateError, fact: Fact, f: Format)
    ensures Outcome(tree, tree, Err(e), fact, f)
  {}

  /** While nothing has been named yet everything reads as it did. */
  lemma Unborn(m: Mutator, d: Disk, s: Shape, rank: map<Lba, int>, writes: seq<Disk>, tree: map<Lba, Fact>, h: Lba,
          data: Bytes)
    requires m.Valid() && m.vol.f.payload > 0 && Began(m, d, s, rank, writes, {}) && m.views == {tree}
              && m.Entries() == tree
    requires Carries(d, s, m.vol.src.blocks, m.shape)
    ensures BornWhole(m.vol.src.trail, |writes|, m.vol.f, m.vol.root, tree, m.Entries(), h, data)
    ensures OthersRead(d, m.vol.f, s, h, m.vol.src.trail, |writes|)
              && StillThere(d, m.vol.f, s, h, m.vol.src.blocks, m.shape)
    ensures writes <= m.vol.src.trail
  {
    hide Mutator.Steady, Rooted, OthersRead, StillThere, Began, Mutator.BeganWith, Shown, Carries, BornWhole;
    ReadyNow(m);
    BeganPart(m, d, s, rank, writes, {});
    m.ShownSince(d, s, writes, {});
    NotBornYet(m.vol.src.trail, |writes|, m.vol.f, m.vol.root, tree, m.Entries(), h, data);
    NothingYet(d, m.vol.f, s, h, writes);
    CarriedStays(d, s, m.vol.src.blocks, m.shape, h);
    OthersPhase(m, d, s, h, |writes|, d, s, rank, writes, {});
  }

  /** With the write that names it the file is there, whole. */
  lemma NamedNow(m: Mutator, before: seq<Disk>, from: nat, tree: map<Lba, Fact>, h: Lba, hdr: Block, data: Bytes)
    requires m.Valid() && m.vol.f.payload > 0 && m.vol.src.trail == before + [m.vol.src.blocks] && from <= |before|
    requires Shown(before, from, m.vol.f, m.vol.root, {tree}) && Laid(m.vol.src.blocks, m.vol.f, m.shape, h, hdr, data)
    ensures BornWhole(m.vol.src.trail, from, m.vol.f, m.vol.root, tree, m.Entries(), h, data)
  {
    hide Mutator.Steady, Rooted, Shown, Shows, Stored, Tree;
    ShowsNow(m);
    NotBornYet(before, from, m.vol.f, m.vol.root, tree, m.Entries(), h, data);
    forall i | from <= i < |m.vol.src.trail|
      ensures BornIn(m.vol.src.trail[i], m.vol.f, m.vol.root, tree, m.Entries(), h, data)
    {
      if i < |before| { assert m.vol.src.trail[i] == before[i]; }
    }
  }

  /** What follows leaves the file named and whole. */
  lemma StaysBorn(m: Mutator, now: Disk, t: Shape, trail: seq<Disk>, from: nat, tree: map<Lba, Fact>, h: Lba,
          hdr: Block, data: Bytes)
    requires m.Valid() && m.vol.f.payload > 0 && Began(m, now, t, m.rank, trail, {}) && m.views == {m.Entries()}
    requires BornWhole(trail, from, m.vol.f, m.vol.root, tree, m.Entries(), h, data)
              && Laid(now, m.vol.f, t, h, hdr, data)
    requires Carries(now, t, m.vol.src.blocks, m.shape)
    ensures BornWhole(m.vol.src.trail, from, m.vol.f, m.vol.root, tree, m.Entries(), h, data)
    ensures Laid(m.vol.src.blocks, m.vol.f, m.shape, h, hdr, data)
    ensures trail <= m.vol.src.trail
  {
    hide Mutator.Steady, Rooted, Shown, Shows, FileIs, Stored, Tree, Began, Mutator.BeganWith;
    BeganPart(m, now, t, m.rank, trail, {});
    m.ShownSince(now, t, trail, {});
    FilesSurvive(m, now, t, m.rank, trail);
    assert BearsFile(now[h]);
    forall i | from <= i < |m.vol.src.trail|
      ensures BornIn(m.vol.src.trail[i], m.vol.f, m.vol.root, tree, m.Entries(), h, data)
    {
      if i < |trail| {
        assert m.vol.src.trail[i] == trail[i] && BornIn(trail[i], m.vol.f, m.vol.root, tree, m.Entries(), h, data);
      } else {
        OnlyView(m.vol.src.trail, i, |trail|, m.vol.f, m.vol.root, m.Entries());
      }
    }
  }

  /** The write that names the file, and what follows it. */
  method Arrive(m: Mutator, dir: Lba, name: Bytes, comment: Bytes, meta: Meta, prep: Prepared, blocks: seq<Lba>,
          exts: seq<Lba>, data: Bytes, ghost d: Disk, ghost s: Shape, ghost rank: map<Lba, int>,
          ghost writes: seq<Disk>)
    returns (r: Result<Lba, MutateError>)
    requires m.Valid() && m.vol.f.payload > 0 && m.vol.f.slots > 0
    requires Began(m, d, s, rank, writes, {}) && m.views == {m.Entries()} && s == m.shape
              && Carries(d, s, m.vol.src.blocks, s)
    requires IsFolder(m.vol.src.blocks, m.shape, dir) && Absent(m.Entries(), m.vol.f.intl, dir, name)
    requires m.Mine(prep.lba) && NoteWritten(m.vol.src.blocks, prep, comment) && (prep.note != 0 ==> m.Mine(prep.note))
    requires |blocks| == CeilDiv(|data|, m.vol.f.payload) && NoRepeats(blocks + exts)
    requires forall y: Lba :: y in blocks || y in exts ==> m.Mine(y) && y != prep.lba && y != prep.note
    requires Poured(m.vol.src.blocks, m.vol.f, prep.lba, data, blocks, |blocks|)
    requires LaidOut(m.vol.src.blocks, m.vol.f.slots, prep.lba, exts, blocks[Min(m.vol.f.slots, |blocks|)..])
    modifies m, m.vol.src, m.alloc
    ensures m.Valid()
    ensures r.Err? ==> m.vol.f.dircache
    ensures !m.vol.f.dircache ==> m.alloc.Free() == old(m.alloc.Free())
    ensures Outcome(old(m.Entries()), m.Entries(), r, Fact(dir, name, File, meta.protection, meta.owner, comment, 0,
              []), m.vol.f)
    ensures Created(old(m.Entries()), m.Entries(), prep.lba,
              Fact(dir, name, File, meta.protection, meta.owner, comment, 0, []), m.vol.f.intl)
    ensures r.Ok? ==> r.value == prep.lba && (FileIs(m.vol.src.blocks, m.vol.f, prep.lba, data) <==> |data| <= MAX_SIZE)
    ensures !s.Owns(prep.lba) && (|data| <= MAX_SIZE ==> Stored(m.vol.src.blocks, m.vol.f, prep.lba, data))
    ensures StillThere(d, m.vol.f, s, prep.lba, m.vol.src.blocks, m.shape)
    ensures r.Ok? && m.vol.f.dircache ==> Mirrors(m.vol.src.blocks, m.vol.f, m.shape, dir)
    ensures BornWhole(m.vol.src.trail, |writes|, m.vol.f, m.vol.root, old(m.Entries()), m.Entries(), prep.lba, data)
    ensures OthersRead(d, m.vol.f, s, prep.lba, m.vol.src.trail, |writes|)
    ensures writes <= m.vol.src.trail
  {
    hide Mutator.Ready, Orderly, Rooted, Mutation.Kept, Mutator.Mine, CeilDiv, Carries, Tree, LaidOut, NoRepeats,
      Shown, IsFolder, Absent, Mirrors,
      Stored, Poured, OthersRead, StillThere, BornWhole, Began, Mutator.BeganWith, FileIs, Laid, NoteWritten;
    ghost var tree, f := m.Entries(), m.vol.f;
    ghost var before, hdr;
    ghost var e := m.vol.src.blocks;
    BeganPart(m, d, s, rank, writes, {});
    PastIs(m, d, s, writes);
    m.ShownSince(d, s, writes, {});
    before, hdr := Deliver(m, dir, name, comment, meta, prep, blocks, exts, data, Low32(|data|));
    ghost var now, t, trail, after := m.vol.src.blocks, m.shape, m.vol.src.trail, m.Entries();
    CarriesOn(d, s, e, s, now, t);
    NamedNow(m, before, |writes|, tree, prep.lba, hdr, data);
    OthersSoFar(m, d, s, rank, writes, prep.lba);
    m.Begin({});
    BeganHere(m, {});
    r := Conclude(m, dir, prep.lba);
    StaysBorn(m, now, t, trail, |writes|, tree, prep.lba, hdr, data);
    OthersThen(m, d, s, |writes|, now, t, trail, prep.lba);
    LaidIsRead(m.vol.src.blocks, m.vol.f, m.shape, prep.lba, hdr, data);
    Concluded(tree, m.Entries(), r, prep.lba, Fact(dir, name, File, meta.protection, meta.owner, comment, 0, []),
        m.vol.f);
  }

  /** So on such a volume, one byte too many, a create that has the room succeeds, and no one
      reads back what was put in. */
  method CreateOneByteTooLong(m: Mutator, dir: Lba, name: Bytes, meta: Meta, data: Bytes)
          returns (r: Result<Lba, MutateError>)
    requires m.Valid() && m.vol.f == SHORT_BLOCKS && Nameable(m, dir, name, []) && |data| == MAX_SIZE + 1
              && |m.alloc.Free()| >= 8505117
    modifies m, m.vol.src, m.alloc
    ensures m.Valid() && r.Ok? && r.value in m.Entries() && !FileIs(m.vol.src.blocks, m.vol.f, r.value, data)
  {
    hide Mutator.Valid, Stored, FileIs, StillThere, OthersRead, BornWhole, Footprint, IsFolder, Absent, NameOk, Mirrors;
    OneByteTooLong();
    ghost var h;
    r, h := CreateFile(m, dir, name, [], meta, data);
  }
}
