/**
 The records a directory's cache blocks hold: how long one is, how they are packed
 into blocks, and how a chain of blocks is read back.
 */
module Dircache {
  import opened Words
  import opened Disk
  import opened Forest
  import opened Directories
  import opened Protocol
  import opened Steps

  // ---- One entry's record -----------------------------------------------------------

  /** The three words a record has room for. */
  function Narrow(date: Date): Date {
    Date(date.days % 0x1_0000, date.mins % 0x1_0000, date.ticks % 0x1_0000)
  }

  function Cut(s: Bytes, max: nat): Bytes {
    if |s| <= max then s else s[..max]
  }

  /** What a cache says of the entry whose header is block `y`. */
  function RecordOf(d: Disk, y: Lba): Record
    requires y < |d| && d[y].Header?
  {
    var b := d[y];
    Record(y, if b.kind.File? || b.kind.LinkFile? then b.size else 0, Cut(b.name, 255), Cut(CommentOf(d, b), 79),
           Meta(b.meta.protection, b.meta.owner, Narrow(b.meta.date)), b.kind)
  }

  function RecordsFor(d: Disk, entries: seq<Lba>): seq<Record>
    requires AllHeaders(d, entries)
  {
    seq(|entries|, i requires 0 <= i < |entries| => assert entries[i] in entries; RecordOf(d, entries[i]))
  }

  /** The cache of `dir` has one record for each of its entries, in the order a walk of
      its chains lists them, in pages that fit their blocks. */
  ghost predicate Mirrors(d: Disk, f: Format, s: Shape, dir: Lba) {
    exists entries, blocks :: MirrorsIn(d, f, s, dir, entries, blocks)
  }

  ghost predicate MirrorsIn(d: Disk, f: Format, s: Shape, dir: Lba, entries: seq<Lba>, blocks: seq<Lba>) {
    && ListsFolder(d, s, dir, entries) && AllHeaders(d, entries) && IsCacheOf(d, dir, blocks)
    && RecordsIn(d, blocks) == RecordsFor(d, entries)
    && forall b :: b in blocks ==> b < |d| && d[b].Cache? && Fitting(d[b].records, f.room)
  }

  // ---- Packing ----------------------------------------------------------------------

  /** Bytes a record takes: its fixed part, two counted strings, and padding to a word. */
  function RecordLen(r: Record): nat {
    var raw := 25 + |r.name| + |r.comment|;
    raw + raw % 2
  }

  function TotalLen(records: seq<Record>): nat {
    if records == [] then 0 else TotalLen(records[..|records| - 1]) + RecordLen(records[|records| - 1])
  }

  function Concat(pages: seq<seq<Record>>): seq<Record> {
    if pages == [] then [] else Concat(pages[..|pages| - 1]) + pages[|pages| - 1]
  }

  /** A page's records fit in a block, as far as each one of them does. */
  predicate Fitting(page: seq<Record>, room: nat) {
    (forall i :: 0 <= i < |page| ==> RecordLen(page[i]) <= room) ==> TotalLen(page) <= room
  }

  /** The longest a record can be: 255 bytes of name and 79 of comment. */
  const RECORD_MAX: nat := 360

  lemma RecordsAreBounded(d: Disk, y: Lba)
    requires y < |d| && d[y].Header?
    ensures RecordLen(RecordOf(d, y)) <= RECORD_MAX
  {
    hide CommentOf;
  }

  lemma {:induction false} InRecords(d: Disk, blocks: seq<Lba>, b: Lba, r: Record)
    requires forall x :: x in blocks ==> x < |d| && d[x].Cache?
    requires b in blocks && r in d[b].records
    ensures r in RecordsIn(d, blocks)
    decreases |blocks|
  {
    var rest := blocks[..|blocks| - 1];
    assert blocks == rest + [blocks[|blocks| - 1]];
    assert forall x :: x in rest ==> x in blocks;
    if b in rest { InRecords(d, rest, b, r); }
  }

  /** Every page of a cache fits its block, in any block a record fits in at all: 488
      bytes of the smallest block are left for records. */
  lemma PagesFit(d: Disk, f: Format, s: Shape, dir: Lba, entries: seq<Lba>, blocks: seq<Lba>, b: Lba)
    requires MirrorsIn(d, f, s, dir, entries, blocks) && b in blocks && f.room >= RECORD_MAX
    ensures b < |d| && d[b].Cache? && TotalLen(d[b].records) <= f.room
  {
    hide ListsFolder, IsCacheOf, RecordLen, TotalLen, RecordOf;
    var page := d[b].records;
    forall i | 0 <= i < |page|
      ensures RecordLen(page[i]) <= f.room
    {
      InRecords(d, blocks, b, page[i]);
      var k :| 0 <= k < |entries| && RecordsFor(d, entries)[k] == page[i];
      assert entries[k] in entries;
      RecordsAreBounded(d, entries[k]);
    }
  }

  /** The first record of page `i` had no room left on the page before. */
  predicate Brimming(pages: seq<seq<Record>>, i: nat, room: nat)
    requires 0 < i < |pages|
  {
    pages[i] != [] && TotalLen(pages[i - 1]) + RecordLen(pages[i][0]) > room
  }

  /** Fill one page after another, a record that does not fit opening the next. */
  method Pack(records: seq<Record>, room: nat) returns (pages: seq<seq<Record>>)
    ensures |pages| > 0 && Concat(pages) == records
    ensures forall i :: 0 <= i < |pages| ==> Fitting(pages[i], room)
    ensures forall i :: 0 < i < |pages| ==> Brimming(pages, i, room)
  {
    hide Concat, TotalLen, Fitting, RecordLen, Brimming;
    NothingPacked(room);
    pages := [];
    var cur: seq<Record> := [];
    var used := 0;
    var i := 0;
    while i < |records|
      invariant 0 <= i <= |records|
      invariant Concat(pages) + cur == records[..i]
      invariant used == TotalLen(cur) && Fitting(cur, room)
      invariant forall j :: 0 <= j < |pages| ==> Fitting(pages[j], room)
      invariant forall j :: 0 < j < |pages| ==> Brimming(pages, j, room)
      invariant pages != [] ==> cur != [] && TotalLen(pages[|pages| - 1]) + RecordLen(cur[0]) > room
    {
      var len := RecordLen(records[i]);
      if used + len > room {
        OnePageMore(pages, cur);
        LastPageBrims(pages, cur, room);
        pages := pages + [cur];
        cur := [];
        used := 0;
      }
      OneRecordMore(cur, records[i], room);
      AddedLast(records, i, Concat(pages), cur);
      cur := cur + [records[i]];
      used := used + len;
      i := i + 1;
    }
    OnePageMore(pages, cur);
    LastPageBrims(pages, cur, room);
    pages := pages + [cur];
    assert records[..i] == records;
  }

  lemma LastPageBrims(pages: seq<seq<Record>>, page: seq<Record>, room: nat)
    requires forall j :: 0 < j < |pages| ==> Brimming(pages, j, room)
    requires pages != [] ==> page != [] && TotalLen(pages[|pages| - 1]) + RecordLen(page[0]) > room
    ensures forall j :: 0 < j < |pages| + 1 ==> Brimming(pages + [page], j, room)
  {
    hide TotalLen, RecordLen;
    forall j | 0 < j < |pages| + 1
      ensures Brimming(pages + [page], j, room)
    {
      if j < |pages| { assert Brimming(pages, j, room); }
    }
  }

  lemma NothingPacked(room: nat)
    ensures Concat([]) == [] && TotalLen([]) == 0 && Fitting([], room)
  {}

  lemma AddedLast(records: seq<Record>, i: nat, before: seq<Record>, cur: seq<Record>)
    requires i < |records| && before + cur == records[..i]
    ensures before + (cur + [records[i]]) == records[..i + 1]
  {
    assert before + (cur + [records[i]]) == (before + cur) + [records[i]];
  }

  lemma OnePageMore(pages: seq<seq<Record>>, page: seq<Record>)
    ensures Concat(pages + [page]) == Concat(pages) + page
  {
    assert (pages + [page])[..|pages|] == pages;
  }

  lemma OneRecordMore(cur: seq<Record>, r: Record, room: nat)
    ensures TotalLen(cur + [r]) == TotalLen(cur) + RecordLen(r)
    ensures TotalLen(cur) + RecordLen(r) <= room || cur == [] ==> Fitting(cur + [r], room)
  {
    assert (cur + [r])[..|cur|] == cur && (cur + [r])[|cur|] == r;
  }

  // ---- The chain of cache blocks ------------------------------------------------------

  predicate IsCache(d: Disk, dir: Lba, lba: Lba) {
    0 < lba < |d| && d[lba].Cache? && d[lba].key == lba && d[lba].dir == dir
  }

  predicate CacheStep(d: Disk, dir: Lba, x: Lba, next: Lba) {
    IsCache(d, dir, x) && d[x].next == next
  }

  function NextIn(blocks: seq<Lba>, i: int, end: Lba): Lba {
    if 0 <= i + 1 < |blocks| then blocks[i + 1] else end
  }

  /** From pointer `from` the cache blocks `blocks` of `dir` follow one another and the
      last one's pointer is `end`. */
  ghost predicate Strung(d: Disk, dir: Lba, from: Lba, blocks: seq<Lba>, end: Lba) {
    && from == NextIn(blocks, -1, end)
    && forall i :: 0 <= i < |blocks| ==> CacheStep(d, dir, blocks[i], NextIn(blocks, i, end))
  }

  function RecordsIn(d: Disk, blocks: seq<Lba>): seq<Record> {
    if blocks == [] then []
    else RecordsIn(d, blocks[..|blocks| - 1])
         + if blocks[|blocks| - 1] < |d| && d[blocks[|blocks| - 1]].Cache? then d[blocks[|blocks| - 1]].records else []
  }

  /** `blocks` is the whole cache of directory `dir`. */
  ghost predicate IsCacheOf(d: Disk, dir: Lba, blocks: seq<Lba>) {
    dir < |d| && Strung(d, dir, At(d[dir], CacheHead), blocks, 0) && NoRepeats(blocks)
  }

  lemma StrungOneMore(d: Disk, dir: Lba, from: Lba, blocks: seq<Lba>, end: Lba)
    requires Strung(d, dir, from, blocks, end) && IsCache(d, dir, end)
    ensures Strung(d, dir, from, blocks + [end], d[end].next)
  {
    var more := blocks + [end];
    forall i | 0 <= i < |more|
      ensures CacheStep(d, dir, more[i], NextIn(more, i, d[end].next))
    {
      if i < |blocks| { assert CacheStep(d, dir, blocks[i], NextIn(blocks, i, end)); }
    }
  }

  lemma NothingStrung(d: Disk, dir: Lba, from: Lba)
    ensures Strung(d, dir, from, [], from)
  {}

  /** A walk that has come to `end` is the first part of any complete one. */
  lemma StrungAgree(d: Disk, dir: Lba, from: Lba, blocks: seq<Lba>, end: Lba, all: seq<Lba>)
    requires Strung(d, dir, from, blocks, end) && Strung(d, dir, from, all, 0)
    ensures |blocks| <= |all| && blocks == all[..|blocks|] && end == NextIn(all, |blocks| - 1, 0)
  {
    var i := 0;
    while i < |blocks|
      invariant 0 <= i <= |blocks| && i <= |all| && blocks[..i] == all[..i]
      invariant NextIn(blocks, i - 1, end) == NextIn(all, i - 1, 0)
    {
      assert CacheStep(d, dir, blocks[i], NextIn(blocks, i, end));
      assert i < |all| && CacheStep(d, dir, all[i], NextIn(all, i, 0));
      i := i + 1;
    }
  }

  /** Where a walk cannot go on, there is no cache to be found. */
  lemma StrungStuck(d: Disk, dir: Lba, from: Lba, blocks: seq<Lba>, end: Lba)
    requires Strung(d, dir, from, blocks, end) && end != 0
    ensures forall all :: Strung(d, dir, from, all, 0) && NoRepeats(all) ==> IsCache(d, dir, end) && end !in blocks
  {
    forall all | Strung(d, dir, from, all, 0) && NoRepeats(all)
      ensures IsCache(d, dir, end) && end !in blocks
    {
      StrungAgree(d, dir, from, blocks, end, all);
      assert end == all[|blocks|] && CacheStep(d, dir, all[|blocks|], NextIn(all, |blocks|, 0));
    }
  }

  lemma StrungIsAll(d: Disk, dir: Lba, from: Lba, blocks: seq<Lba>)
    requires Strung(d, dir, from, blocks, 0)
    ensures forall all :: Strung(d, dir, from, all, 0) ==> all == blocks
  {
    forall all | Strung(d, dir, from, all, 0)
      ensures all == blocks
    {
      StrungAgree(d, dir, from, blocks, 0, all);
      assert |blocks| < |all| ==> CacheStep(d, dir, all[|blocks|], NextIn(all, |blocks|, 0));
    }
  }

  lemma {:induction false} RecordsArePages(d: Disk, blocks: seq<Lba>, pages: seq<seq<Record>>)
    requires |blocks| == |pages|
    requires forall i :: 0 <= i < |blocks| ==>
              blocks[i] < |d| && d[blocks[i]].Cache? && d[blocks[i]].records == pages[i]
    ensures RecordsIn(d, blocks) == Concat(pages)
    decreases |blocks|
  {
    if blocks != [] {
      RecordsArePages(d, blocks[..|blocks| - 1], pages[..|pages| - 1]);
    }
  }

  lemma RecordsOneMore(d: Disk, blocks: seq<Lba>, b: Lba)
    requires b < |d| && d[b].Cache?
    ensures RecordsIn(d, blocks + [b]) == RecordsIn(d, blocks) + d[b].records
  {
    assert (blocks + [b])[..|blocks|] == blocks;
  }

  // ---- What a cache owns ---------------------------------------------------------------

  /** The edges to the blocks of `blocks`, the chain of directory `dir`. */
  function CacheEdges(dir: Lba, blocks: seq<Lba>): map<Lba, Edge> {
    if blocks == [] then map[]
    else CacheEdges(dir, blocks[..|blocks| - 1])[blocks[|blocks| - 1] := CacheEdge(dir, blocks, |blocks| - 1)]
  }

  function CacheEdge(dir: Lba, blocks: seq<Lba>, i: nat): Edge
    requires i < |blocks|
  {
    if i == 0 then Edge(dir, CacheHead) else Edge(blocks[i - 1], CacheNext)
  }

  lemma {:induction false} CacheEdgesAre(dir: Lba, blocks: seq<Lba>)
    requires NoRepeats(blocks)
    ensures CacheEdges(dir, blocks).Keys == SetOf(blocks)
    ensures forall i :: 0 <= i < |blocks| ==> EdgeAt(dir, blocks, i)
    decreases |blocks|
  {
    if blocks != [] {
      var n := |blocks| - 1;
      var rest := blocks[..n];
      CacheEdgesAre(dir, rest);
      assert blocks == rest + [blocks[n]];
      SetOfMore(rest, blocks[n]);
      forall i | 0 <= i < |blocks|
        ensures EdgeAt(dir, blocks, i)
      {
        EdgeStays(dir, blocks, i);
      }
      hide EdgeAt, CacheEdge, NoRepeats;
    }
  }

  lemma EdgeStays(dir: Lba, blocks: seq<Lba>, i: nat)
    requires NoRepeats(blocks) && i < |blocks| && (i < |blocks| - 1 ==> EdgeAt(dir, blocks[..|blocks| - 1], i))
    ensures EdgeAt(dir, blocks, i)
  {}

  predicate EdgeAt(dir: Lba, blocks: seq<Lba>, i: nat)
    requires i < |blocks|
  {
    blocks[i] in CacheEdges(dir, blocks) && CacheEdges(dir, blocks)[blocks[i]] == CacheEdge(dir, blocks, i)
  }

  // ---- A cache is rebuilt ---------------------------------------------------------------

  /** The directory block `b` with its cache pointer set. */
  function WithCache(b: Block, first: Lba): Block
    requires IsDirectory(b)
  {
    if b.Root? then b.(cache := first) else b.(ext := first)
  }

  ghost function Recached(s: Shape, dir: Lba, was: seq<Lba>, blocks: seq<Lba>): Shape {
    Shape(s.root, (s.up - SetOf(was)) + CacheEdges(dir, blocks), s.orphans)
  }

  /** What the writes of a rebuild make of `d`: the chain `blocks`, `next` pointers and
      all, in the place of `was`, and the pointer to it where there was none. */
  ghost predicate Rebuilt(d: Disk, s: Shape, dir: Lba, was: seq<Lba>, blocks: seq<Lba>, e: Disk) {
    && |e| == |d| && |blocks| > 0 && NoRepeats(blocks) && dir < |d| && IsDirectory(d[dir])
    && (forall b: Lba :: b in blocks ==> b in was || !s.Owns(b))
    && (forall i :: 0 <= i < |blocks| ==> CacheStep(e, dir, blocks[i], NextIn(blocks, i, 0)))
    && e[dir] == (if was == [] then WithCache(d[dir], blocks[0]) else d[dir])
    && (was != [] ==> blocks[0] == was[0])
    && (forall x: Lba :: s.Owns(x) && x !in SetOf(was) && x != dir && x < |d| ==> e[x] == d[x])
  }

  lemma WithCacheIsSmall(b: Block, first: Lba)
    requires IsDirectory(b)
    ensures var c := WithCache(b, first);
            && SameEntry(b, c) && SameSlots(b, c) && (b.Root? <==> c.Root?) && |HashTable(b)| == |HashTable(c)|
            && (b.Header? ==>
                c.kind == b.kind && c.note == b.note && c.comment == b.comment && c.meta == b.meta && c.size == b.size
                              && c.realEntry == b.realEntry && c.path == b.path)
            && (b.Root? ==> c.pages == b.pages) && KeepsFile(b, c) && At(c, CacheHead) == first
    ensures forall l :: l != CacheHead ==> At(WithCache(b, first), l) == At(b, l)
  {}

  /** A cache's blocks hang off its directory, each by the pointer before it. */
  lemma CacheIsOwned(d: Disk, s: Shape, dir: Lba, was: seq<Lba>)
    requires Grown(d, s) && IsCacheOf(d, dir, was) && s.Owns(dir) && IsDirectory(d[dir])
    ensures forall i :: 0 <= i < |was| ==> was[i] in s.up && s.up[was[i]] == CacheEdge(dir, was, i)
    ensures HangsOff(s, dir, SetOf(was)) && dir !in was
    ensures forall b: Lba :: b in was ==> IsCache(d, dir, b)
  {
    forall i | 0 <= i < |was|
      ensures IsCache(d, dir, was[i])
      ensures was[i] in s.up && s.up[was[i]] == CacheEdge(dir, was, i)
    {
      CacheBlockIsOwned(d, s, dir, was, i);
    }
  }

  lemma {:induction false} CacheBlockIsOwned(d: Disk, s: Shape, dir: Lba, was: seq<Lba>, i: nat)
    requires Grown(d, s) && IsCacheOf(d, dir, was) && s.Owns(dir) && i < |was|
    ensures IsCache(d, dir, was[i]) && was[i] in s.up && s.up[was[i]] == CacheEdge(dir, was, i)
  {
    hide At, Grown;
    assert CacheStep(d, dir, was[i], NextIn(was, i, 0));
    if i == 0 {
      CacheHeadOwned(d, s, dir);
    } else {
      CacheBlockIsOwned(d, s, dir, was, i - 1);
      assert CacheStep(d, dir, was[i - 1], NextIn(was, i - 1, 0));
      CacheNextOwned(d, s, was[i - 1]);
    }
  }

  lemma CacheHeadOwned(d: Disk, s: Shape, dir: Lba)
    requires Grown(d, s) && s.Owns(dir) && dir < |d|
    ensures At(d[dir], CacheHead) != 0 ==>
              At(d[dir], CacheHead) in s.up && s.up[At(d[dir], CacheHead)] == Edge(dir, CacheHead)
  {
    assert Recorded(d, s, dir);
  }

  lemma CacheNextOwned(d: Disk, s: Shape, x: Lba)
    requires Grown(d, s) && s.Owns(x) && x < |d| && d[x].Cache? && d[x].next != 0
    ensures d[x].next in s.up && s.up[d[x].next] == Edge(x, CacheNext)
  {
    assert Recorded(d, s, x) && At(d[x], CacheNext) == d[x].next;
  }

  lemma RebuiltGrows(d: Disk, s: Shape, dir: Lba, was: seq<Lba>, blocks: seq<Lba>, e: Disk)
    requires Grown(d, s) && IsFolder(d, s, dir) && IsCacheOf(d, dir, was) && Rebuilt(d, s, dir, was, blocks, e)
    ensures Grown(e, Recached(s, dir, was, blocks))
  {
    CacheIsOwned(d, s, dir, was);
    CacheEdgesAre(dir, blocks);
    RebuiltBlocks(dir, blocks, e);
    DirPointers(d, s, dir, was, blocks, e);
    DirPointsThere(d, dir, was, blocks, e);
    OrphansStay(d, s, dir, was, blocks, e);
    OutsideStays(d, s, dir, was, blocks, e);
    hide At, Fits, CacheEdges, EdgeAt, CacheEdge, CacheStep, Strung, IsFolder, IsDirectory, Grown, HangsOff,
      SamePointers, NoRepeats;
    Regrown(d, e, s, dir, SetOf(was), CacheEdges(dir, blocks));
  }

  lemma DirPointsThere(d: Disk, dir: Lba, was: seq<Lba>, blocks: seq<Lba>, e: Disk)
    requires |blocks| > 0 && NoRepeats(blocks) && dir < |d| && dir < |e| && At(e[dir], CacheHead) == blocks[0]
    requires forall l :: l != CacheHead && At(e[dir], l) != 0 ==>
              At(e[dir], l) == At(d[dir], l) && At(d[dir], l) !in SetOf(was)
    ensures forall l :: At(e[dir], l) != 0 ==>
              || (At(e[dir], l) in CacheEdges(dir, blocks) && CacheEdges(dir, blocks)[At(e[dir], l)] == Edge(dir, l))
              || (At(e[dir], l) == At(d[dir], l) && At(d[dir], l) !in SetOf(was))
  {
    CacheEdgesAre(dir, blocks);
    assert EdgeAt(dir, blocks, 0);
    hide At, CacheEdges;
  }

  lemma OutsideStays(d: Disk, s: Shape, dir: Lba, was: seq<Lba>, blocks: seq<Lba>, e: Disk)
    requires Grown(d, s) && Rebuilt(d, s, dir, was, blocks, e)
    ensures forall x: Lba :: s.Owns(x) && x !in SetOf(was) && x != dir ==> x < |d| && e[x] == d[x]
  {
    hide CacheStep, IsDirectory;
    forall x: Lba | s.Owns(x) && x !in SetOf(was) && x != dir
      ensures x < |d| && e[x] == d[x]
    {
      OwnedInside(d, s, x);
    }
  }

  lemma OrphansStay(d: Disk, s: Shape, dir: Lba, was: seq<Lba>, blocks: seq<Lba>, e: Disk)
    requires Grown(d, s) && IsFolder(d, s, dir) && IsCacheOf(d, dir, was) && Rebuilt(d, s, dir, was, blocks, e)
    ensures forall x: Lba :: x in s.orphans ==> x < |e| && e[x].Header?
  {
    CacheIsOwned(d, s, dir, was);
    hide At, Strung, CacheStep;
    forall x: Lba | x in s.orphans
      ensures x < |e| && e[x].Header?
    {
      assert Recorded(d, s, x) && x !in SetOf(was) && x != dir;
    }
  }

  lemma RebuiltBlocks(dir: Lba, blocks: seq<Lba>, e: Disk)
    requires NoRepeats(blocks)
    requires forall i :: 0 <= i < |blocks| ==> CacheStep(e, dir, blocks[i], NextIn(blocks, i, 0))
    ensures forall y: Lba :: y in CacheEdges(dir, blocks) ==> 0 < y < |e| && Fits(e[y], CacheEdges(dir, blocks)[y].link)
    ensures forall y: Lba, l :: y in CacheEdges(dir, blocks) && At(e[y], l) != 0 ==>
              At(e[y], l) in CacheEdges(dir, blocks) && CacheEdges(dir, blocks)[At(e[y], l)] == Edge(y, l)
  {
    CacheEdgesAre(dir, blocks);
    hide At, Fits, CacheEdges, EdgeAt, CacheEdge, CacheStep;
    forall y: Lba | y in CacheEdges(dir, blocks)
      ensures 0 < y < |e| && Fits(e[y], CacheEdges(dir, blocks)[y].link)
      ensures forall l :: At(e[y], l) != 0 ==>
                At(e[y], l) in CacheEdges(dir, blocks) && CacheEdges(dir, blocks)[At(e[y], l)] == Edge(y, l)
    {
      var i :| 0 <= i < |blocks| && blocks[i] == y;
      RebuiltBlock(dir, blocks, e, i);
    }
  }

  lemma RebuiltBlock(dir: Lba, blocks: seq<Lba>, e: Disk, i: nat)
    requires i < |blocks| && EdgeAt(dir, blocks, i) && CacheStep(e, dir, blocks[i], NextIn(blocks, i, 0))
    requires i + 1 < |blocks| ==> EdgeAt(dir, blocks, i + 1)
    ensures blocks[i] in CacheEdges(dir, blocks)
    ensures 0 < blocks[i] < |e| && Fits(e[blocks[i]], CacheEdges(dir, blocks)[blocks[i]].link)
    ensures forall l :: At(e[blocks[i]], l) != 0 ==>
              && At(e[blocks[i]], l) in CacheEdges(dir, blocks)
              && CacheEdges(dir, blocks)[At(e[blocks[i]], l)] == Edge(blocks[i], l)
  {
    hide CacheEdges;
  }

  lemma DirPointers(d: Disk, s: Shape, dir: Lba, was: seq<Lba>, blocks: seq<Lba>, e: Disk)
    requires Grown(d, s) && IsFolder(d, s, dir) && IsCacheOf(d, dir, was) && Rebuilt(d, s, dir, was, blocks, e)
    ensures (d[dir].Root? <==> e[dir].Root?) && (d[dir].Header? <==> e[dir].Header?)
    ensures dir in s.up ==> Fits(e[dir], s.up[dir].link)
    ensures At(e[dir], CacheHead) == blocks[0]
    ensures forall l :: l != CacheHead && At(e[dir], l) != 0 ==>
              At(e[dir], l) == At(d[dir], l) && At(d[dir], l) !in SetOf(was)
  {
    CacheIsOwned(d, s, dir, was);
    WithCacheIsSmall(d[dir], blocks[0]);
    assert Recorded(d, s, dir);
    if dir in s.up { assert Fits(d[dir], s.up[dir].link); }
    forall l | l != CacheHead && At(e[dir], l) != 0
      ensures At(e[dir], l) == At(d[dir], l) && At(d[dir], l) !in SetOf(was)
    {
      assert s.up[At(d[dir], l)] == Edge(dir, l) && At(d[dir], CacheNext) == 0;
    }
  }

  lemma RebuiltEdges(d: Disk, s: Shape, dir: Lba, was: seq<Lba>, blocks: seq<Lba>)
    requires Grown(d, s) && IsFolder(d, s, dir) && IsCacheOf(d, dir, was) && NoRepeats(blocks)
    requires forall b: Lba :: b in blocks ==> b in was || !s.Owns(b)
    ensures var t := Recached(s, dir, was, blocks);
            && (forall y: Lba :: IsEntry(t, y) <==> IsEntry(s, y))
            && (forall x: Lba :: s.Owns(x) && x !in SetOf(was) ==> t.Owns(x))
            && (forall y: Lba :: y in s.up && y !in SetOf(was) ==> y in t.up && t.up[y] == s.up[y])
            && (forall x: Lba :: t.Owns(x) ==> (s.Owns(x) && x !in SetOf(was)) || x in SetOf(blocks))
  {
    CacheIsOwned(d, s, dir, was);
    EdgesAreCaches(dir, blocks);
    CacheIsNoEntry(s, dir, was);
    hide Strung, CacheEdges, Grown;
  }

  lemma EdgesAreCaches(dir: Lba, blocks: seq<Lba>)
    requires NoRepeats(blocks)
    ensures CacheEdges(dir, blocks).Keys == SetOf(blocks)
    ensures forall y: Lba :: y in CacheEdges(dir, blocks) ==>
              CacheEdges(dir, blocks)[y].link.CacheHead? || CacheEdges(dir, blocks)[y].link.CacheNext?
  {
    CacheEdgesAre(dir, blocks);
    hide CacheEdges, EdgeAt;
    forall y: Lba | y in CacheEdges(dir, blocks)
      ensures CacheEdges(dir, blocks)[y].link.CacheHead? || CacheEdges(dir, blocks)[y].link.CacheNext?
    {
      var i :| 0 <= i < |blocks| && blocks[i] == y;
      EdgeIsCache(dir, blocks, i);
    }
  }

  lemma EdgeIsCache(dir: Lba, blocks: seq<Lba>, i: nat)
    requires i < |blocks| && EdgeAt(dir, blocks, i)
    ensures blocks[i] in CacheEdges(dir, blocks)
    ensures CacheEdges(dir, blocks)[blocks[i]].link.CacheHead? || CacheEdges(dir, blocks)[blocks[i]].link.CacheNext?
  {
    hide CacheEdges;
  }

  lemma CacheIsNoEntry(s: Shape, dir: Lba, was: seq<Lba>)
    requires forall i :: 0 <= i < |was| ==> was[i] in s.up && s.up[was[i]] == CacheEdge(dir, was, i)
    ensures forall y: Lba :: y in SetOf(was) ==> !IsEntry(s, y)
  {
    forall y: Lba | y in SetOf(was)
      ensures !IsEntry(s, y)
    {
      var i :| 0 <= i < |was| && was[i] == y;
      assert s.up[was[i]] == CacheEdge(dir, was, i);
    }
  }

  /** An entry's own block is as it was, up to the cache pointer of the directory itself. */
  lemma EntriesAreNotCaches(d: Disk, f: Format, s: Shape, rank: map<Lba, int>, dir: Lba, was: seq<Lba>,
          blocks: seq<Lba>, e: Disk)
    requires Grown(d, s) && Named(d, f, s, rank) && IsFolder(d, s, dir) && IsCacheOf(d, dir, was)
    requires Rebuilt(d, s, dir, was, blocks, e)
    ensures forall y: Lba :: IsEntry(s, y) ==>
              && y < |d| && d[y].Header? && e[y].Header? && y !in SetOf(was) && s.Owns(s.up[y].from)
              && s.up[y].from !in SetOf(was) && SameEntry(d[y], e[y]) && FactOf(d, d[y]) == FactOf(e, e[y])
  {
    hide At, Fits, SlotIn, Strung, WithCache, SameSlots, Named, CacheEdge, CacheStep, SameEntry, FactOf;
    CacheIsOwned(d, s, dir, was);
    forall y: Lba | IsEntry(s, y)
      ensures y < |d| && d[y].Header? && e[y].Header? && y !in SetOf(was) && s.Owns(s.up[y].from)
      ensures s.up[y].from !in SetOf(was) && SameEntry(d[y], e[y]) && FactOf(d, d[y]) == FactOf(e, e[y])
    {
      EntryIsHeader(d, f, s, rank, y);
      FromIsNotCache(d, f, s, rank, y);
      EntryIsLeft(d, s, dir, was, blocks, e, y);
    }
  }

  /** An entry the rebuild leaves, or only points at its new cache. */
  lemma EntryIsLeft(d: Disk, s: Shape, dir: Lba, was: seq<Lba>, blocks: seq<Lba>, e: Disk, y: Lba)
    requires Grown(d, s) && Rebuilt(d, s, dir, was, blocks, e) && IsEntry(s, y) && y < |d| && d[y].Header?
              && y !in SetOf(was)
    requires dir < |d| && IsDirectory(d[dir])
    requires forall x: Lba :: x in SetOf(was) ==> x < |d| && d[x].Cache?
    ensures e[y].Header? && SameEntry(d[y], e[y]) && FactOf(d, d[y]) == FactOf(e, e[y])
  {
    WithCacheIsSmall(d[dir], blocks[0]);
    if d[y].note != 0 { NoteIsOwned(d, s, y); }
    hide Grown, At;
  }

  lemma FromIsNotCache(d: Disk, f: Format, s: Shape, rank: map<Lba, int>, y: Lba)
    requires Named(d, f, s, rank) && IsEntry(s, y)
    ensures s.up[y].from < |d| && !d[s.up[y].from].Cache?
  {
    assert Placed(d, f, s, rank, y);
  }

  lemma RebuiltNames(d: Disk, f: Format, s: Shape, rank: map<Lba, int>, dir: Lba, was: seq<Lba>, blocks: seq<Lba>,
          e: Disk)
    requires Grown(d, s) && Named(d, f, s, rank) && IsFolder(d, s, dir) && IsCacheOf(d, dir, was)
    requires Rebuilt(d, s, dir, was, blocks, e)
    ensures Named(e, f, Recached(s, dir, was, blocks), rank)
  {
    hide At, Fits, SlotIn, Recached, FactOf, Strung, CacheStep, SameSlots, SameEntry, WithCache, Grown, SetOf;
    var t := Recached(s, dir, was, blocks);
    RebuiltEdges(d, s, dir, was, blocks);
    EntriesAreNotCaches(d, f, s, rank, dir, was, blocks, e);
    forall x: Lba | t.Owns(x) && x < |d|
      ensures s.Owns(x) ==> SameSlots(d[x], e[x])
      ensures IsDirectory(e[x]) ==> |HashTable(e[x])| == f.slots
    {
      RebuiltTable(d, f, s, rank, dir, was, blocks, e, x);
    }
    NamedFramed(d, f, s, rank, e, t);
  }

  /** The rebuild changes no hash table. */
  lemma RebuiltTable(d: Disk, f: Format, s: Shape, rank: map<Lba, int>, dir: Lba, was: seq<Lba>, blocks: seq<Lba>,
          e: Disk, x: Lba)
    requires Grown(d, s) && Named(d, f, s, rank) && IsFolder(d, s, dir) && IsCacheOf(d, dir, was)
              && Rebuilt(d, s, dir, was, blocks, e)
    requires (s.Owns(x) && x !in SetOf(was)) || x in SetOf(blocks)
    requires x < |d|
    ensures |e| == |d| && (s.Owns(x) ==> SameSlots(d[x], e[x]))
    ensures IsDirectory(e[x]) ==> |HashTable(e[x])| == f.slots
  {
    hide Fits, SlotIn, Recached, FactOf, Strung, Placed, SameEntry;
    CacheIsOwned(d, s, dir, was);
    WithCacheIsSmall(d[dir], blocks[0]);
    if x in SetOf(blocks) {
      var i :| 0 <= i < |blocks| && blocks[i] == x;
      assert CacheStep(e, dir, blocks[i], NextIn(blocks, i, 0));
      if s.Owns(x) { CachesHaveNoSlots(d[x], e[x]); }
    }
  }

  lemma CachesHaveNoSlots(b: Block, c: Block)
    requires b.Cache? && c.Cache?
    ensures SameSlots(b, c)
  {}

  lemma RebuiltTree(d: Disk, f: Format, s: Shape, rank: map<Lba, int>, dir: Lba, was: seq<Lba>, blocks: seq<Lba>,
          e: Disk)
    requires Grown(d, s) && Named(d, f, s, rank) && IsFolder(d, s, dir) && IsCacheOf(d, dir, was)
    requires Rebuilt(d, s, dir, was, blocks, e)
    ensures Tree(e, Recached(s, dir, was, blocks)) == Tree(d, s)
    ensures Rooted(d, s) ==> Rooted(e, Recached(s, dir, was, blocks))
  {
    RebuiltEdges(d, s, dir, was, blocks);
    EntriesAreNotCaches(d, f, s, rank, dir, was, blocks, e);
    RootStays(d, s, dir, was, blocks, e);
    hide At, Fits, SlotIn, CacheEdges, Recached, Named, Grown, SameEntry, SameSlots, FactOf, Climbs, CacheStep,
      WithCache;
    var t := Recached(s, dir, was, blocks);
    assert t.root == s.root;
    TreeFramed(d, s, e, t);
    RebuiltWaysUp(d, s, e, t);
  }

  lemma RebuiltCarries(d: Disk, s: Shape, dir: Lba, was: seq<Lba>, blocks: seq<Lba>, e: Disk)
    requires Grown(d, s) && IsFolder(d, s, dir) && IsCacheOf(d, dir, was) && Rebuilt(d, s, dir, was, blocks, e)
    ensures Carries(d, s, e, Recached(s, dir, was, blocks))
  {
    RebuiltEdges(d, s, dir, was, blocks);
    CachesBearNoFile(d, s, dir, was);
    hide Grown, Strung, Recached, WithCache, CacheStep, KeepsFile, IsCacheOf;
    forall x: Lba | s.Owns(x) && x < |d| && BearsFile(d[x])
      ensures Recached(s, dir, was, blocks).Owns(x) && KeepsFile(d[x], e[x])
    {
      if x == dir { WithCacheIsSmall(d[dir], blocks[0]); }
      KeepsItself(d[x]);
    }
  }

  lemma KeepsItself(b: Block)
    ensures KeepsFile(b, b)
  {}

  lemma CachesBearNoFile(d: Disk, s: Shape, dir: Lba, was: seq<Lba>)
    requires Grown(d, s) && IsFolder(d, s, dir) && IsCacheOf(d, dir, was)
    ensures forall x: Lba :: x in SetOf(was) ==> x < |d| && !BearsFile(d[x])
  {
    hide Grown, Strung, HangsOff, CacheEdge;
    CacheIsOwned(d, s, dir, was);
  }

  lemma RebuiltIsCache(d: Disk, s: Shape, dir: Lba, was: seq<Lba>, blocks: seq<Lba>, e: Disk)
    requires Grown(d, s) && IsFolder(d, s, dir) && IsCacheOf(d, dir, was) && Rebuilt(d, s, dir, was, blocks, e)
    ensures IsCacheOf(e, dir, blocks)
  {
    DirPointers(d, s, dir, was, blocks, e);
  }

  lemma RebuiltKeepsOrder(d: Disk, f: Format, g: Geometry, s: Shape, rank: map<Lba, int>, root: Lba, dir: Lba,
          was: seq<Lba>, blocks: seq<Lba>, e: Disk)
    requires Orderly(d, f, g, s, rank, root) && IsFolder(d, s, dir) && IsCacheOf(d, dir, was)
    requires Rebuilt(d, s, dir, was, blocks, e)
    ensures Orderly(e, f, g, Recached(s, dir, was, blocks), rank, root)
    ensures Tree(e, Recached(s, dir, was, blocks)) == Tree(d, s)
    ensures Rooted(d, s) ==> Rooted(e, Recached(s, dir, was, blocks))
    ensures IsCacheOf(e, dir, blocks)
  {
    RebuiltGrows(d, s, dir, was, blocks, e);
    RebuiltNames(d, f, s, rank, dir, was, blocks, e);
    RebuiltTree(d, f, s, rank, dir, was, blocks, e);
    RebuiltIsCache(d, s, dir, was, blocks, e);
    RootStays(d, s, dir, was, blocks, e);
    hide Named, Grown, Tree, Rooted, IsCacheOf, Rebuilt;
  }

  lemma RootStays(d: Disk, s: Shape, dir: Lba, was: seq<Lba>, blocks: seq<Lba>, e: Disk)
    requires Grown(d, s) && IsFolder(d, s, dir) && IsCacheOf(d, dir, was) && Rebuilt(d, s, dir, was, blocks, e)
    ensures s.root < |d| && e[s.root].Root? && e[s.root].pages == d[s.root].pages
  {
    CacheIsOwned(d, s, dir, was);
    WithCacheIsSmall(d[dir], blocks[0]);
    assert Recorded(d, s, s.root);
  }

  lemma RebuiltWaysUp(d: Disk, s: Shape, e: Disk, t: Shape)
    requires |e| == |d| && s.root == t.root < |d| && e[s.root].Root?
    requires forall y: Lba :: IsEntry(s, y) <==> IsEntry(t, y)
    requires forall y: Lba :: IsEntry(s, y) ==> y < |d| && SameEntry(d[y], e[y])
    ensures Rooted(d, s) ==> Rooted(e, t)
  {
    hide At, Climbs;
    if Rooted(d, s) { RootedFramed(d, s, e, t); }
  }

  /** Entries are told apart from the rest by the tree, their order by the chains. */
  lemma FolderByTree(d: Disk, s: Shape, e: Disk, t: Shape, dir: Lba, entries: seq<Lba>)
    requires |d| == |e| && Tree(d, s) == Tree(e, t) && ListsFolder(d, s, dir, entries) && SameWalk(d, e, dir, entries)
    ensures ListsFolder(e, t, dir, entries)
  {
    SlotsFramed(d, dir, |HashTable(d[dir])|, entries, e);
    hide WalksSlots;
    forall y: Lba
      ensures EntryOf(d, s, dir, y) <==> EntryOf(e, t, dir, y)
    {
      InTree(d, s, dir, y);
      InTree(e, t, dir, y);
    }
  }

  lemma InTree(d: Disk, s: Shape, dir: Lba, y: Lba)
    ensures EntryOf(d, s, dir, y) <==> y in Tree(d, s) && Tree(d, s)[y].dir == dir
  {}

  /** The pages are rewritten: nothing a cache says or is about moves. */
  lemma FlushKeepsRecords(d: Disk, s: Shape, dir: Lba, entries: seq<Lba>, e: Disk, g: Geometry)
    requires Grown(d, s) && ListsFolder(d, s, dir, entries) && AllHeaders(d, entries) && PagesRewritten(d, e, g)
    requires forall i :: 0 <= i < |g.pages| ==> g.pages[i] < |d| && d[g.pages[i]].Bitmap?
    ensures AllHeaders(e, entries) && RecordsFor(e, entries) == RecordsFor(d, entries) && SameWalk(d, e, dir, entries)
  {
    hide WalksSlots;
    forall y | y in entries
      ensures y < |e| && e[y] == d[y] && RecordOf(e, y) == RecordOf(d, y)
    {
      assert EntryOf(d, s, dir, y);
      assert s.Owns(y);
      if d[y].note != 0 { NoteIsOwned(d, s, y); }
    }
  }

  lemma FlushKeepsCache(d: Disk, dir: Lba, blocks: seq<Lba>, e: Disk, g: Geometry)
    requires IsCacheOf(d, dir, blocks) && PagesRewritten(d, e, g) && IsDirectory(d[dir])
    requires forall i :: 0 <= i < |g.pages| ==> g.pages[i] < |d| && d[g.pages[i]].Bitmap?
    ensures IsCacheOf(e, dir, blocks) && RecordsIn(e, blocks) == RecordsIn(d, blocks)
    ensures forall b :: b in blocks ==> b < |d| && d[b].Cache? && e[b] == d[b]
  {
    forall i | 0 <= i < |blocks|
      ensures CacheStep(e, dir, blocks[i], NextIn(blocks, i, 0)) && e[blocks[i]] == d[blocks[i]]
    {
      assert CacheStep(d, dir, blocks[i], NextIn(blocks, i, 0));
    }
    SameRecords(d, blocks, e);
  }

  lemma {:induction false} SameRecords(d: Disk, blocks: seq<Lba>, e: Disk)
    requires forall b :: b in blocks ==> b < |d| && b < |e| && d[b].Cache? && e[b] == d[b]
    ensures RecordsIn(e, blocks) == RecordsIn(d, blocks)
    decreases |blocks|
  {
    if blocks != [] {
      var rest := blocks[..|blocks| - 1];
      assert forall b :: b in rest ==> b in blocks;
      assert blocks[|blocks| - 1] in blocks;
      SameRecords(d, rest, e);
    }
  }

  lemma FlushKeepsMirror(d: Disk, f: Format, s: Shape, dir: Lba, entries: seq<Lba>, blocks: seq<Lba>, e: Disk,
          g: Geometry)
    requires Grown(d, s) && IsFolder(d, s, dir) && MirrorsIn(d, f, s, dir, entries, blocks) && PagesRewritten(d, e, g)
    requires forall i :: 0 <= i < |g.pages| ==> g.pages[i] < |d| && d[g.pages[i]].Bitmap?
    requires Tree(e, s) == Tree(d, s)
    ensures MirrorsIn(e, f, s, dir, entries, blocks)
  {
    FlushKeepsRecords(d, s, dir, entries, e, g);
    FolderByTree(d, s, e, s, dir, entries);
    FlushKeepsCache(d, dir, blocks, e, g);
  }

  /** After the writes of a rebuild the cache mirrors the directory. */
  lemma RebuiltMirrors(d: Disk, f: Format, s: Shape, rank: map<Lba, int>, dir: Lba, was: seq<Lba>, blocks: seq<Lba>,
          e: Disk, entries: seq<Lba>, pages: seq<seq<Record>>)
    requires Grown(d, s) && Named(d, f, s, rank) && IsFolder(d, s, dir) && IsCacheOf(d, dir, was)
    requires Rebuilt(d, s, dir, was, blocks, e)
    requires ListsFolder(d, s, dir, entries) && AllHeaders(d, entries) && |blocks| == |pages|
    requires Concat(pages) == RecordsFor(d, entries)
    requires forall i :: 0 <= i < |pages| ==>
              Fitting(pages[i], f.room) && blocks[i] < |e| && e[blocks[i]].Cache? && e[blocks[i]].records == pages[i]
    ensures MirrorsIn(e, f, Recached(s, dir, was, blocks), dir, entries, blocks)
  {
    RebuiltTree(d, f, s, rank, dir, was, blocks, e);
    RebuiltIsCache(d, s, dir, was, blocks, e);
    RecordsArePages(e, blocks, pages);
    RebuiltRecords(d, f, s, rank, dir, was, blocks, e, entries);
    hide Grown, Named, Strung, Recached, Rebuilt, ListsFolder, Tree, RecordsFor, RecordsIn, Fitting, IsCacheOf,
      SameWalk;
    FolderByTree(d, s, e, Recached(s, dir, was, blocks), dir, entries);
  }

  lemma RebuiltRecords(d: Disk, f: Format, s: Shape, rank: map<Lba, int>, dir: Lba, was: seq<Lba>, blocks: seq<Lba>,
          e: Disk, entries: seq<Lba>)
    requires Grown(d, s) && Named(d, f, s, rank) && IsFolder(d, s, dir) && IsCacheOf(d, dir, was)
    requires Rebuilt(d, s, dir, was, blocks, e)
    requires ListsFolder(d, s, dir, entries) && AllHeaders(d, entries)
    ensures AllHeaders(e, entries) && RecordsFor(e, entries) == RecordsFor(d, entries) && SameWalk(d, e, dir, entries)
  {
    EntriesAreNotCaches(d, f, s, rank, dir, was, blocks, e);
    RebuiltDirectory(d, s, dir, was, blocks, e);
    hide Grown, Named, Strung, SameEntry, CacheStep, ListsFolder, FactOf, RecordOf, Rebuilt, At;
    forall y | y in entries
      ensures y < |e| && e[y].Header? && RecordOf(e, y) == RecordOf(d, y) && At(e[y], Chain) == At(d[y], Chain)
    {
      ListedIsEntry(d, s, dir, entries, y);
      SameChain(d[y], e[y]);
      RebuiltRecord(d, s, dir, was, blocks, e, y);
    }
  }

  lemma SameChain(b: Block, c: Block)
    requires SameEntry(b, c)
    ensures At(c, Chain) == At(b, Chain)
  {}

  lemma RebuiltDirectory(d: Disk, s: Shape, dir: Lba, was: seq<Lba>, blocks: seq<Lba>, e: Disk)
    requires Rebuilt(d, s, dir, was, blocks, e)
    ensures |e| == |d| && dir < |d| && IsDirectory(d[dir]) && IsDirectory(e[dir])
              && |HashTable(e[dir])| == |HashTable(d[dir])|
    ensures forall l: Link :: l.Slot? ==> At(e[dir], l) == At(d[dir], l)
  {
    WithCacheIsSmall(d[dir], blocks[0]);
  }

  lemma ListedIsEntry(d: Disk, s: Shape, dir: Lba, entries: seq<Lba>, y: Lba)
    requires ListsFolder(d, s, dir, entries) && y in entries
    ensures IsEntry(s, y) && s.Owns(y)
  {
    assert EntryOf(d, s, dir, y);
  }

  lemma RebuiltRecord(d: Disk, s: Shape, dir: Lba, was: seq<Lba>, blocks: seq<Lba>, e: Disk, y: Lba)
    requires Rebuilt(d, s, dir, was, blocks, e) && s.Owns(y) && y < |d| && y !in SetOf(was)
    requires |e| == |d| && d[y].Header? && e[y].Header? && FactOf(d, d[y]) == FactOf(e, e[y])
    ensures RecordOf(e, y) == RecordOf(d, y)
  {
    WithCacheIsSmall(d[dir], blocks[0]);
  }

  /** Dates and accounts change on block `x` and on the root: a cache with no record of `x`
      mirrors its directory as it did. */
  lemma NeutralKeepsMirror(d: Disk, f: Format, s: Shape, dir: Lba, x: Lba, e: Disk)
    requires Grown(d, s) && IsFolder(d, s, dir) && Mirrors(d, f, s, dir) && !EntryOf(d, s, dir, x)
    requires |e| == |d| && Tree(e, s) == Tree(d, s) && OnlyDated(d, s, x, e)
    ensures Mirrors(e, f, s, dir)
  {
    var entries, blocks :| MirrorsIn(d, f, s, dir, entries, blocks);
    RecordsStay(d, s, dir, x, e, entries);
    CacheStays(d, s, dir, blocks, x, e);
    hide Grown, OnlyDated, Tree, ListsFolder, IsCacheOf, RecordsFor, RecordsIn, SameWalk;
    FolderByTree(d, s, e, s, dir, entries);
    assert MirrorsIn(e, f, s, dir, entries, blocks);
  }

  /** Of the blocks in use, `x` and the root at most differ, and in dates and accounts only. */
  ghost predicate OnlyDated(d: Disk, s: Shape, x: Lba, e: Disk) {
    && |e| == |d| && (forall y: Lba :: s.Owns(y) && y != x && y != s.root && y < |d| ==> e[y] == d[y])
    && x < |d| && IsDirectory(d[x]) && Neutral(d[x], e[x]) && (s.root < |d| ==> Neutral(d[s.root], e[s.root]))
  }

  lemma RecordsStay(d: Disk, s: Shape, dir: Lba, x: Lba, e: Disk, entries: seq<Lba>)
    requires Grown(d, s) && IsFolder(d, s, dir) && !EntryOf(d, s, dir, x) && OnlyDated(d, s, x, e)
    requires ListsFolder(d, s, dir, entries) && AllHeaders(d, entries)
    ensures AllHeaders(e, entries) && RecordsFor(e, entries) == RecordsFor(d, entries) && SameWalk(d, e, dir, entries)
  {
    DirectoryStays(d, s, dir, x, e);
    hide Grown, RecordOf, WalksSlots, OnlyDated, At;
    forall y | y in entries
      ensures y < |e| && e[y] == d[y] && RecordOf(e, y) == RecordOf(d, y)
    {
      ListedIsEntry(d, s, dir, entries, y);
      EntryStays(d, s, dir, x, e, y);
    }
  }

  lemma DirectoryStays(d: Disk, s: Shape, dir: Lba, x: Lba, e: Disk)
    requires IsFolder(d, s, dir) && OnlyDated(d, s, x, e)
    ensures dir < |d| && IsDirectory(d[dir]) && IsDirectory(e[dir]) && |HashTable(e[dir])| == |HashTable(d[dir])|
    ensures forall l :: At(e[dir], l) == At(d[dir], l)
  {
    NeutralItself(d[dir]);
    assert dir != x && dir != s.root ==> e[dir] == d[dir];
  }

  lemma EntryStays(d: Disk, s: Shape, dir: Lba, x: Lba, e: Disk, y: Lba)
    requires Grown(d, s) && EntryOf(d, s, dir, y) && y != x && OnlyDated(d, s, x, e)
    ensures e[y] == d[y] && RecordOf(e, y) == RecordOf(d, y)
  {
    assert y != s.root && s.Owns(y);
    if d[y].note != 0 { NoteIsOwned(d, s, y); }
  }

  lemma CacheStays(d: Disk, s: Shape, dir: Lba, blocks: seq<Lba>, x: Lba, e: Disk)
    requires Grown(d, s) && IsFolder(d, s, dir) && IsCacheOf(d, dir, blocks) && OnlyDated(d, s, x, e)
    ensures IsCacheOf(e, dir, blocks) && RecordsIn(e, blocks) == RecordsIn(d, blocks)
    ensures forall b :: b in blocks ==> b < |e| && e[b] == d[b]
  {
    CacheIsOwned(d, s, dir, blocks);
    DirectoryStays(d, s, dir, x, e);
    hide HangsOff;
    forall i | 0 <= i < |blocks|
      ensures CacheStep(e, dir, blocks[i], NextIn(blocks, i, 0)) && e[blocks[i]] == d[blocks[i]] && d[blocks[i]].Cache?
    {
      assert CacheStep(d, dir, blocks[i], NextIn(blocks, i, 0)) && blocks[i] in s.up;
      CacheNotDated(d, s, blocks[i], x, e);
    }
    SameRecords(d, blocks, e);
  }

  lemma CacheNotDated(d: Disk, s: Shape, b: Lba, x: Lba, e: Disk)
    requires Grown(d, s) && b in s.up && b < |d| && d[b].Cache? && OnlyDated(d, s, x, e)
    ensures e[b] == d[b]
  {}

  lemma RootIsNoEntry(d: Disk, s: Shape, dir: Lba)
    requires Grown(d, s)
    ensures !EntryOf(d, s, dir, s.root)
  {}

  /** The accounts and the dates the root keeps are in no cache. */
  lemma RootKeepsMirror(d: Disk, f: Format, s: Shape, dir: Lba, e: Disk)
    requires Grown(d, s) && IsFolder(d, s, dir) && Mirrors(d, f, s, dir) && s.root < |d| && d[s.root].Root?
    requires |e| == |d| && Tree(e, s) == Tree(d, s) && Neutral(d[s.root], e[s.root]) &&
              forall y: Lba :: y != s.root && y < |d| ==> e[y] == d[y]
    ensures Mirrors(e, f, s, dir)
  {
    RootIsNoEntry(d, s, dir);
    hide Grown, Mirrors, Neutral, Tree, EntryOf;
    NeutralKeepsMirror(d, f, s, dir, s.root, e);
  }

  /** Pages of the bitmap are rewritten: every cache mirrors its directory as it did. */
  lemma FlushKeepsMirrors(d: Disk, f: Format, s: Shape, dir: Lba, e: Disk, g: Geometry)
    requires Grown(d, s) && IsFolder(d, s, dir) && Mirrors(d, f, s, dir) && PagesRewritten(d, e, g)
    requires forall i :: 0 <= i < |g.pages| ==> g.pages[i] < |d| && d[g.pages[i]].Bitmap?
    requires Tree(e, s) == Tree(d, s)
    ensures Mirrors(e, f, s, dir)
  {
    hide MirrorsIn, Grown, Tree;
    var entries, blocks :| MirrorsIn(d, f, s, dir, entries, blocks);
    FlushKeepsMirror(d, f, s, dir, entries, blocks, e, g);
  }

  /** A block of the cache of `dir`. */
  predicate OfCache(b: Block, dir: Lba) {
    b.Cache? && b.dir == dir
  }

  /** From `d` to `e` nothing in use was written but the cache of `dir`, the pointer to it and
      pages of the bitmap, and nothing else went out of use. */
  ghost predicate OnlyCacheOf(d: Disk, s: Shape, dir: Lba, e: Disk, t: Shape) {
    && |e| == |d| && t.root == s.root
    && (forall x: Lba :: s.Owns(x) && x < |d| && x != dir && !OfCache(d[x], dir) ==>
        t.Owns(x) && (e[x] == d[x] || (d[x].Bitmap? && e[x].Bitmap?)))
    && (dir < |d| && IsDirectory(d[dir]) ==> e[dir] == WithCache(d[dir], At(e[dir], CacheHead)))
  }

  lemma WithCacheItself(b: Block)
    requires IsDirectory(b)
    ensures WithCache(b, At(b, CacheHead)) == b
    ensures forall h :: At(WithCache(b, h), CacheHead) == h && IsDirectory(WithCache(b, h))
    ensures forall h, k :: WithCache(WithCache(b, h), k) == WithCache(b, k)
  {}

  lemma OnlyCacheAtFirst(d: Disk, s: Shape, dir: Lba)
    ensures OnlyCacheOf(d, s, dir, d, s)
  {
    if dir < |d| && IsDirectory(d[dir]) { WithCacheItself(d[dir]); }
  }

  lemma OnlyCacheOn(d: Disk, s: Shape, dir: Lba, e: Disk, t: Shape, e2: Disk, t2: Shape)
    requires OnlyCacheOf(d, s, dir, e, t) && OnlyCacheOf(e, t, dir, e2, t2)
    ensures OnlyCacheOf(d, s, dir, e2, t2)
  {
    if dir < |d| && IsDirectory(d[dir]) { WithCacheItself(d[dir]); }
    hide WithCache, At;
  }

  lemma FlushIsOnlyPages(d: Disk, s: Shape, dir: Lba, e: Disk)
    requires |e| == |d| && forall x: Lba :: x < |d| && e[x] != d[x] ==> d[x].Bitmap? && e[x].Bitmap?
    ensures OnlyCacheOf(d, s, dir, e, s)
  {
    if dir < |d| && IsDirectory(d[dir]) { WithCacheItself(d[dir]); }
  }

  lemma RebuiltIsOnlyCache(d: Disk, s: Shape, dir: Lba, was: seq<Lba>, blocks: seq<Lba>, e: Disk)
    requires Grown(d, s) && IsFolder(d, s, dir) && IsCacheOf(d, dir, was) && Rebuilt(d, s, dir, was, blocks, e)
    ensures OnlyCacheOf(d, s, dir, e, Recached(s, dir, was, blocks))
  {
    RebuiltEdges(d, s, dir, was, blocks);
    CacheIsOwned(d, s, dir, was);
    WithCacheItself(d[dir]);
    hide Grown, Strung, CacheStep, WithCache, At, HangsOff, CacheEdge, CacheEdges;
  }

  /** The caches of other directories are left alone. */
  lemma RefreshKeepsMirror(d: Disk, f: Format, s: Shape, dir: Lba, other: Lba, e: Disk, t: Shape)
    requires Grown(d, s) && IsFolder(d, s, dir) && IsFolder(d, s, other) && dir != other && Mirrors(d, f, s, dir)
    requires OnlyCacheOf(d, s, other, e, t) && Tree(e, t) == Tree(d, s)
    ensures Mirrors(e, f, t, dir)
  {
    var entries, blocks :| MirrorsIn(d, f, s, dir, entries, blocks);
    OthersRecords(d, s, dir, other, e, t, entries);
    OthersCache(d, s, dir, other, e, t, blocks);
    hide Grown, OnlyCacheOf, Tree, ListsFolder, IsCacheOf, RecordsFor, RecordsIn, SameWalk;
    FolderByTree(d, s, e, t, dir, entries);
    assert MirrorsIn(e, f, t, dir, entries, blocks);
  }

  lemma OthersRecords(d: Disk, s: Shape, dir: Lba, other: Lba, e: Disk, t: Shape, entries: seq<Lba>)
    requires Grown(d, s) && IsFolder(d, s, dir) && IsFolder(d, s, other) && dir != other
              && OnlyCacheOf(d, s, other, e, t)
    requires ListsFolder(d, s, dir, entries) && AllHeaders(d, entries)
    ensures AllHeaders(e, entries) && RecordsFor(e, entries) == RecordsFor(d, entries) && SameWalk(d, e, dir, entries)
  {
    DirectoryLeft(d, s, dir, other, e, t);
    hide Grown, RecordOf, WalksSlots, OnlyCacheOf, At;
    forall y | y in entries
      ensures y < |e| && e[y].Header? && RecordOf(e, y) == RecordOf(d, y) && At(e[y], Chain) == At(d[y], Chain)
    {
      ListedIsEntry(d, s, dir, entries, y);
      EntryLeft(d, s, other, e, t, y);
    }
  }

  lemma DirectoryLeft(d: Disk, s: Shape, dir: Lba, other: Lba, e: Disk, t: Shape)
    requires IsFolder(d, s, dir) && dir != other && OnlyCacheOf(d, s, other, e, t)
    ensures dir < |d| == |e| && e[dir] == d[dir]
  {}

  lemma EntryLeft(d: Disk, s: Shape, other: Lba, e: Disk, t: Shape, y: Lba)
    requires Grown(d, s) && IsFolder(d, s, other) && OnlyCacheOf(d, s, other, e, t) && s.Owns(y) && y < |d|
              && d[y].Header?
    ensures y < |e| && e[y].Header? && RecordOf(e, y) == RecordOf(d, y) && At(e[y], Chain) == At(d[y], Chain)
  {
    if y == other { WithCacheIsSmall(d[y], At(e[y], CacheHead)); }
    if d[y].note != 0 { NoteIsOwned(d, s, y); }
  }

  lemma OthersCache(d: Disk, s: Shape, dir: Lba, other: Lba, e: Disk, t: Shape, blocks: seq<Lba>)
    requires Grown(d, s) && IsFolder(d, s, dir) && dir != other && OnlyCacheOf(d, s, other, e, t)
    requires IsFolder(d, s, other) && IsCacheOf(d, dir, blocks)
    ensures IsCacheOf(e, dir, blocks) && RecordsIn(e, blocks) == RecordsIn(d, blocks)
    ensures forall b :: b in blocks ==> b < |e| && e[b] == d[b]
  {
    hide HangsOff, Grown, At, OnlyCacheOf, RecordsIn, CacheEdge, CacheStep, IsCache, NoRepeats;
    CacheIsOwned(d, s, dir, blocks);
    DirectoryLeft(d, s, dir, other, e, t);
    forall i | 0 <= i < |blocks|
      ensures CacheStep(e, dir, blocks[i], NextIn(blocks, i, 0)) && blocks[i] < |d| && e[blocks[i]] == d[blocks[i]]
                && d[blocks[i]].Cache?
    {
      assert CacheStep(d, dir, blocks[i], NextIn(blocks, i, 0)) && blocks[i] in s.up;
      OthersCacheBlock(d, s, dir, other, e, t, blocks[i], NextIn(blocks, i, 0));
    }
    SameRecords(d, blocks, e);
  }

  lemma OthersCacheBlock(d: Disk, s: Shape, dir: Lba, other: Lba, e: Disk, t: Shape, b: Lba, next: Lba)
    requires IsFolder(d, s, other) && dir != other && OnlyCacheOf(d, s, other, e, t) && CacheStep(d, dir, b, next)
              && s.Owns(b)
    ensures CacheStep(e, dir, b, next) && b < |d| && e[b] == d[b] && d[b].Cache?
  {}

  /** Between them, the blocks of the cache of `dir` and the free ones are what they were. */
  ghost predicate CacheTraded(d: Disk, free: set<Lba>, e: Disk, now: set<Lba>, dir: Lba) {
    exists was, blocks :: IsCacheOf(d, dir, was) && IsCacheOf(e, dir, blocks) && Traded(free, was, now, blocks)
  }

  ghost predicate Traded(free: set<Lba>, was: seq<Lba>, now: set<Lba>, blocks: seq<Lba>) {
    now + SetOf(blocks) == free + SetOf(was) && now !! SetOf(blocks) && free !! SetOf(was)
  }

  /** What was drawn and what was given back make up the difference. */
  lemma TradeBalances(free: set<Lba>, was: seq<Lba>, drawn: set<Lba>, blocks: seq<Lba>, now: set<Lba>)
    requires drawn <= free && free !! SetOf(was) && drawn <= SetOf(blocks) <= drawn + SetOf(was)
    requires now == free - drawn + (SetOf(was) - SetOf(blocks))
    ensures Traded(free, was, now, blocks)
  {}

  /** The link between two hard links is in no record. */
  lemma LinkKeepsMirror(d: Disk, f: Format, s: Shape, dir: Lba, t: Lba, n: Lba)
    requires Grown(d, s) && IsFolder(d, s, dir) && Mirrors(d, f, s, dir) && t < |d| && d[t].Header?
    requires Tree(d[t := LinkedOn(d[t], n)], s) == Tree(d, s)
    ensures Mirrors(d[t := LinkedOn(d[t], n)], f, s, dir)
  {
    var e := d[t := LinkedOn(d[t], n)];
    var entries, blocks :| MirrorsIn(d, f, s, dir, entries, blocks);
    LinkKeepsRecords(d, entries, t, n);
    LinkKeepsWalk(d, dir, entries, t, n);
    LinkKeepsCache(d, s, dir, blocks, t, n);
    hide Grown, Tree, ListsFolder, IsCacheOf, RecordsFor, RecordsIn, SameWalk;
    FolderByTree(d, s, e, s, dir, entries);
    assert MirrorsIn(e, f, s, dir, entries, blocks);
  }

  lemma LinkKeepsRecords(d: Disk, entries: seq<Lba>, t: Lba, n: Lba)
    requires AllHeaders(d, entries) && t < |d| && d[t].Header?
    ensures AllHeaders(d[t := LinkedOn(d[t], n)], entries)
    ensures RecordsFor(d[t := LinkedOn(d[t], n)], entries) == RecordsFor(d, entries)
  {
    var e := d[t := LinkedOn(d[t], n)];
    forall y | y in entries
      ensures y < |e| && e[y].Header? && RecordOf(e, y) == RecordOf(d, y)
    {}
  }

  lemma LinkKeepsWalk(d: Disk, dir: Lba, entries: seq<Lba>, t: Lba, n: Lba)
    requires t < |d| && d[t].Header? && dir < |d| && IsDirectory(d[dir])
    ensures SameWalk(d, d[t := LinkedOn(d[t], n)], dir, entries)
  {}

  lemma CacheHeadStays(d: Disk, s: Shape, dir: Lba, t: Lba, n: Lba)
    requires IsFolder(d, s, dir) && t < |d| && d[t].Header?
    ensures dir < |d| && At(d[t := LinkedOn(d[t], n)][dir], CacheHead) == At(d[dir], CacheHead)
    ensures IsDirectory(d[t := LinkedOn(d[t], n)][dir])
  {}

  lemma LinkKeepsCache(d: Disk, s: Shape, dir: Lba, blocks: seq<Lba>, t: Lba, n: Lba)
    requires Grown(d, s) && IsFolder(d, s, dir) && IsCacheOf(d, dir, blocks) && t < |d| && d[t].Header?
    ensures IsCacheOf(d[t := LinkedOn(d[t], n)], dir, blocks)
    ensures RecordsIn(d[t := LinkedOn(d[t], n)], blocks) == RecordsIn(d, blocks)
    ensures forall b :: b in blocks ==> b < |d| && d[b].Cache? && d[t := LinkedOn(d[t], n)][b] == d[b]
  {
    var e := d[t := LinkedOn(d[t], n)];
    hide Grown, At, HangsOff, CacheEdge, IsFolder, RecordsIn, LinkedOn, NoRepeats;
    CacheHeadStays(d, s, dir, t, n);
    assert forall x: Lba :: x < |d| && x != t ==> e[x] == d[x];
    forall i | 0 <= i < |blocks|
      ensures CacheStep(e, dir, blocks[i], NextIn(blocks, i, 0)) && e[blocks[i]] == d[blocks[i]] && d[blocks[i]].Cache?
    {
      assert CacheStep(d, dir, blocks[i], NextIn(blocks, i, 0));
    }
    SameRecords(d, blocks, e);
  }
}
