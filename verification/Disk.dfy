/**
 A volume as a sequence of typed blocks. A pointer is a block number and 0 is
 the null pointer; the fields are the ones the format keeps in each block, so a
 reader of this module sees every longword another block can be reached through.
 */
module Disk {
  import opened Words

  type Lba = nat
  type Byte = b: nat | b < 256
  type Bytes = seq<Byte>

  datatype Option<+T> = None | Some(value: T)
  datatype Result<+T, +E> = Ok(value: T) | Err(error: E)

  /** What the dostype and the block size decide: whether data blocks carry a header,
      the folding table, whether directories have caches and entries long names, the
      pointers in a table, the bytes in a data block and in a page of cache records. */
  datatype Format = Format(ffs: bool, intl: bool, dircache: bool, longNames: bool,
                           slots: nat, payload: nat, room: nat)

  /** The longest name an entry can have. */
  function MaxName(f: Format): nat {
    if f.longNames then 107 else 30
  }

  datatype Kind = Directory | File | SoftLink | LinkDir | LinkFile

  /** Days since 1978, minutes of the day and 50ths of a second of the minute. */
  datatype Date = Date(days: Word, mins: Word, ticks: Word)

  /** The fields no pointer and no length depends on. */
  datatype Meta = Meta(protection: Word, owner: Word, date: Date)

  /** One directory entry as a dircache remembers it. */
  datatype Record = Record(entry: Lba, size: nat, name: Bytes, comment: Bytes, meta: Meta, kind: Kind)

  datatype Block =
    | Root(heads: seq<Lba>, cache: Lba, pages: seq<Lba>, valid: bool, used: nat, altered: Date, dirAltered: Date)
    // A directory's `table` is its hash table, a file's is its first data pointers; `path`
    // is the bytes a soft link keeps there instead.
    | Header(kind: Kind, own: Lba, parent: Lba, name: Bytes, comment: Bytes, note: Lba, chain: Lba,
             table: seq<Lba>, ext: Lba, size: nat, nextLink: Lba, realEntry: Lba, path: Bytes, meta: Meta)
    | List(key: Lba, owner: Lba, data: seq<Lba>, next: Lba)
    | Data(owner: Lba, number: nat, next: Lba, payload: Bytes)
    | Raw(payload: Bytes)
    | Comment(key: Lba, owner: Lba, text: Bytes)
    | Cache(key: Lba, dir: Lba, records: seq<Record>, next: Lba)
    | Bitmap(words: seq<Word>)
    | Blank

  type Disk = seq<Block>

  /** What a reader takes a NUL-terminated field to say. */
  function UpToNul(field: Bytes): Bytes {
    if field == [] || field[0] == 0 then [] else [field[0]] + UpToNul(field[1..])
  }

  // ---- Pointers ---------------------------------------------------------------

  /** The longwords a walk from the root follows. */
  datatype Link = Slot(i: nat) | Chain | Datum(i: nat) | Ext | CacheHead | CacheNext | Note | Page(i: nat)

  function Nth(s: seq<Lba>, i: nat): Lba {
    if i < |s| then s[i] else 0
  }

  /** The block number block `b` holds at `l`, 0 where it has no such pointer. */
  function At(b: Block, l: Link): Lba {
    match l
    case Slot(i) => if IsDirectory(b) then Nth(HashTable(b), i) else 0
    case Chain => if b.Header? then b.chain else 0
    case Datum(i) => if IsFile(b) then Nth(b.table, i) else if b.List? then Nth(b.data, i) else 0
    case Ext => if IsFile(b) then b.ext else if b.List? then b.next else 0
    case CacheHead => if b.Root? then b.cache else if IsDirectory(b) then b.ext else 0
    case CacheNext => if b.Cache? then b.next else 0
    case Note => if b.Header? then b.note else 0
    case Page(i) => if b.Root? then Nth(b.pages, i) else 0
  }

  predicate IsDirectory(b: Block) {
    b.Root? || (b.Header? && b.kind.Directory?)
  }

  function HashTable(b: Block): seq<Lba>
    requires IsDirectory(b)
  {
    if b.Root? then b.heads else b.table
  }

  predicate IsFile(b: Block) {
    b.Header? && b.kind.File?
  }

  predicate IsLink(b: Block) {
    b.Header? && (b.kind.LinkDir? || b.kind.LinkFile?)
  }

  /** Every pointer of `b` names a block of `s`. */
  ghost predicate PointsInto(b: Block, s: set<Lba>) {
    forall l :: At(b, l) != 0 ==> At(b, l) in s
  }

  predicate IsContent(b: Block) {
    b.Data? || b.Raw?
  }

  // ---- Reachability -----------------------------------------------------------

  ghost predicate PointsTo(d: Disk, x: Lba, y: Lba) {
    x < |d| && y != 0 && exists l :: At(d[x], l) == y
  }

  ghost predicate IsPath(d: Disk, path: seq<Lba>) {
    |path| > 0 && forall i :: 0 <= i < |path| - 1 ==> PointsTo(d, path[i], path[i + 1])
  }

  /** A walk from `root` along pointers arrives at `x`. */
  ghost predicate Reachable(d: Disk, root: Lba, x: Lba) {
    exists path :: IsPath(d, path) && path[0] == root && path[|path| - 1] == x
  }

  ghost predicate Closed(d: Disk, s: set<Lba>) {
    forall x :: x in s ==> x < |d| && PointsInto(d[x], s)
  }

  lemma {:induction false} PathStaysInside(d: Disk, path: seq<Lba>, s: set<Lba>)
    requires IsPath(d, path) && Closed(d, s) && path[0] in s
    ensures path[|path| - 1] in s
    decreases |path|
  {
    if |path| > 1 {
      assert PointsTo(d, path[0], path[0 + 1]);
      var rest := path[1..];
      forall i | 0 <= i < |rest| - 1
        ensures PointsTo(d, rest[i], rest[i + 1])
      {
        assert PointsTo(d, path[i + 1], path[i + 1 + 1]);
      }
      PathStaysInside(d, rest, s);
    }
  }

  lemma ReachableStaysInside(d: Disk, root: Lba, s: set<Lba>)
    requires Closed(d, s) && root in s
    ensures forall x :: Reachable(d, root, x) ==> x in s
  {
    forall x | Reachable(d, root, x)
      ensures x in s
    {
      var path :| IsPath(d, path) && path[0] == root && path[|path| - 1] == x;
      PathStaysInside(d, path, s);
    }
  }

  // ---- The allocation bitmap on the disk ----------------------------------------

  /** Page `i` of the bitmap, in block `pages[i]`, holds one bit for each of the
      `32 * perPage` blocks from `reserved + i * 32 * perPage`. A set bit is a free block. */
  datatype Geometry = Geometry(reserved: nat, count: nat, perPage: nat, pages: seq<Lba>)

  function FirstOf(g: Geometry, i: nat): nat {
    g.reserved + i * g.perPage * 32
  }

  predicate FreeBit(words: seq<Word>, bit: int) {
    0 <= bit < 32 * |words| && Bit(words[bit / 32], bit % 32)
  }

  /** The bit of block `x` is set: the block is free. */
  predicate FreeIn(words: seq<Word>, reserved: nat, x: Lba) {
    FreeBit(words, x - reserved)
  }

  predicate FreeInPage(d: Disk, g: Geometry, i: nat, x: Lba)
    requires i < |g.pages|
  {
    && g.pages[i] < |d| && d[g.pages[i]].Bitmap?
    && 0 <= x - FirstOf(g, i) < 32 * g.perPage && FreeBit(d[g.pages[i]].words, x - FirstOf(g, i))
  }

  /** The bitmap on the disk calls block `x` free. */
  ghost predicate FreeOnDisk(d: Disk, g: Geometry, x: Lba) {
    g.reserved <= x < g.count && exists i: nat :: i < |g.pages| && FreeInPage(d, g, i, x)
  }

  /** `e` is `d` with some of the bitmap's pages rewritten. */
  ghost predicate PagesRewritten(d: Disk, e: Disk, g: Geometry) {
    && |e| == |d|
    && forall y :: 0 <= y < |d| ==> e[y] == d[y] || (e[y].Bitmap? && y in g.pages)
  }

  /** `e` is what some of the writes of a flush make of `d`, when the memory calls the
      blocks of `free` free: nothing is called free that was not so in one of the two. */
  ghost predicate Flushed(g: Geometry, free: set<Lba>, d: Disk, e: Disk) {
    && PagesRewritten(d, e, g)
    && forall x :: FreeOnDisk(e, g, x) ==> FreeOnDisk(d, g, x) || x in free
  }

  ghost predicate FlushTrail(g: Geometry, free: set<Lba>, d: Disk, before: seq<Disk>, trail: seq<Disk>) {
    && before <= trail
    && forall i :: |before| <= i < |trail| ==> Flushed(g, free, d, trail[i])
  }

  lemma NothingFlushed(g: Geometry, free: set<Lba>, d: Disk)
    ensures Flushed(g, free, d, d)
  {}

  /** The invariant the whole write discipline is for: nothing a walk from the
      root arrives at is called free. Its failure is a pending double allocation. */
  ghost predicate Safe(d: Disk, g: Geometry, root: Lba) {
    forall x :: Reachable(d, root, x) ==> !FreeOnDisk(d, g, x)
  }

  lemma ClosedIsSafe(d: Disk, g: Geometry, root: Lba, s: set<Lba>)
    requires Closed(d, s) && root in s
    requires forall x :: x in s ==> !FreeOnDisk(d, g, x)
    ensures Safe(d, g, root)
  {
    ReachableStaysInside(d, root, s);
  }

  // ---- The medium -----------------------------------------------------------------

  /** A block device: one block is written at a time, and a crash leaves the blocks
      as they were after some write. `trail` remembers every such state. */
  class Medium {
    var blocks: Disk
    ghost var trail: seq<Disk>
    ghost const first: Disk

    constructor (blocks: Disk)
      ensures this.blocks == blocks == first && trail == []
    {
      this.blocks := blocks;
      first := blocks;
      trail := [];
    }

    /** The blocks are as the last write left them. */
    ghost predicate Remembers()
      reads this
    {
      blocks == if trail == [] then first else trail[|trail| - 1]
    }

    method Write(lba: Lba, b: Block)
      requires lba < |blocks|
      modifies this
      ensures blocks == old(blocks)[lba := b]
      ensures trail == old(trail) + [blocks]
    {
      blocks := blocks[lba := b];
      trail := trail + [blocks];
    }
  }
}
