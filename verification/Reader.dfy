/**
 The read side: parsing entries, collecting a file's data blocks through its
 extension blocks, and delivering its bytes, refusing whatever does not add up.
 */
module Reader {
  import opened Words
  import opened Disk
  import opened Names
  import opened Forest
  import opened Directories
  import opened Dircache

  datatype Error =
    | OutOfRange(lba: Lba)
    | NameTooLong(len: nat, max: nat)
    | NotHeader(lba: Lba)
    | NotDirectory(lba: Lba)
    | NotFile(lba: Lba)
    | NotSoftLink(lba: Lba)
    | WrongBlockType(lba: Lba)
    | OwnKeyMismatch(lba: Lba)
    | BlockOwnerMismatch(lba: Lba)
    | ChainCycle(lba: Lba)
    | ChainTooLong(lba: Lba)
    | DataPointerCount(lba: Lba)
    | DataPointerHole(lba: Lba)
    | FileSizeMismatch(lba: Lba)
    | DataBlockSequence(lba: Lba)
    | DataBlockSize(lba: Lba)

  datatype FileChain = FileChain(header: Lba, size: nat, blocks: seq<Lba>, extensions: seq<Lba>)

  // ---- The chain of data blocks ---------------------------------------------------

  predicate TableOk(table: seq<Lba>, slots: nat) {
    |table| <= slots && 0 !in table
  }

  predicate IsExtension(d: Disk, slots: nat, header: Lba, lba: Lba) {
    && 0 < lba < |d| && d[lba].List? && d[lba].key == lba && d[lba].owner == header
    && TableOk(d[lba].data, slots)
  }

  /** From pointer `from` the extension blocks `exts` follow one another, list `data`
      between them, and the last one's pointer is `end`. */
  ghost predicate Walks(d: Disk, slots: nat, header: Lba, from: Lba, exts: seq<Lba>, data: seq<Lba>, end: Lba)
    decreases |exts|
  {
    if exts == [] then from == end && data == []
    else
      && from == exts[0] && IsExtension(d, slots, header, from)
      && d[from].data <= data
      && Walks(d, slots, header, d[from].next, exts[1..], data[|d[from].data|..], end)
  }

  /** `n / p` rounded up. */
  function CeilDiv(n: nat, p: nat): (q: nat)
    requires p > 0
    ensures n <= q * p && (n > 0 ==> q > 0 && (q - 1) * p < n)
  {
    if n == 0 then 0 else if n <= p then 1 else 1 + CeilDiv(n - p, p)
  }

  /** What a walk of the file's header and extension blocks must find to believe it. */
  ghost predicate IsChain(d: Disk, f: Format, c: FileChain)
    requires f.payload > 0
  {
    && c.header < |d| && IsFile(d[c.header]) && c.size == d[c.header].size
    && TableOk(d[c.header].table, f.slots) && d[c.header].table <= c.blocks
    && Walks(d, f.slots, c.header, d[c.header].ext, c.extensions, c.blocks[|d[c.header].table|..], 0)
    && NoRepeats([c.header] + c.extensions)
    && |c.blocks| == CeilDiv(c.size, f.payload)
  }

  // ---- The bytes --------------------------------------------------------------------

  /** The part of `s` that block `i` of a file holds. */
  function Chunk(s: Bytes, payload: nat, i: nat): Bytes {
    if |s| <= i * payload then []
    else if |s| <= i * payload + payload then s[i * payload..]
    else s[i * payload..i * payload + payload]
  }

  /** Block `lba`, as block `i` of the file, delivers exactly `chunk` to a reader. */
  predicate Delivers(d: Disk, ffs: bool, header: Lba, i: nat, lba: Lba, chunk: Bytes) {
    lba < |d|
    && if ffs then d[lba].Raw? && chunk <= d[lba].payload
    else d[lba] == Data(header, i + 1, if d[lba].Data? then d[lba].next else 0, chunk)
  }

  ghost predicate Holds(d: Disk, f: Format, c: FileChain, s: Bytes) {
    && |s| == c.size
    && forall i :: 0 <= i < |c.blocks| ==> Delivers(d, f.ffs, c.header, i, c.blocks[i], Chunk(s, f.payload, i))
  }

  /** How many bytes of block `i` a file of `size` bytes uses. */
  function LenAt(size: nat, payload: nat, i: nat): nat {
    if size <= i * payload then 0 else if size - i * payload < payload then size - i * payload else payload
  }

  lemma ChunkSize(s: Bytes, payload: nat, i: nat)
    ensures |Chunk(s, payload, i)| == LenAt(|s|, payload, i)
  {}

  /** What reading a chain off to its end hands over, whether or not it lists as many
      blocks as its size asks for. */
  ghost predicate Hands(d: Disk, f: Format, c: FileChain, s: Bytes) {
    && |s| == (if |c.blocks| * f.payload < c.size then |c.blocks| * f.payload else c.size)
    && forall i :: 0 <= i < |c.blocks| ==> Delivers(d, f.ffs, c.header, i, c.blocks[i], Chunk(s, f.payload, i))
  }

  /** A chain that lists enough blocks hands over the file. */
  lemma HandsIsHolds(d: Disk, f: Format, c: FileChain, s: Bytes)
    requires f.payload > 0 && CeilDiv(c.size, f.payload) <= |c.blocks|
    ensures Hands(d, f, c, s) <==> Holds(d, f, c, s)
  {
    MulMonotone(CeilDiv(c.size, f.payload), |c.blocks|, f.payload);
  }

  /** A reader that opens the file with header `h` gets the bytes `s`. */
  ghost predicate FileIs(d: Disk, f: Format, h: Lba, s: Bytes)
    requires f.payload > 0
  {
    exists c :: IsChain(d, f, c) && c.header == h && Holds(d, f, c, s)
  }

  // ---- Walking ----------------------------------------------------------------------

  lemma {:induction false} WalkOneMore(d: Disk, slots: nat, header: Lba, from: Lba, exts: seq<Lba>, data: seq<Lba>,
          end: Lba)
    requires Walks(d, slots, header, from, exts, data, end) && IsExtension(d, slots, header, end)
    ensures Walks(d, slots, header, from, exts + [end], data + d[end].data, d[end].next)
    decreases |exts|
  {
    if exts == [] {
      assert (data + d[end].data)[|d[end].data|..] == [];
    } else {
      var k := |d[from].data|;
      WalkOneMore(d, slots, header, d[from].next, exts[1..], data[k..], end);
      assert (exts + [end])[1..] == exts[1..] + [end];
      assert (data + d[end].data)[k..] == data[k..] + d[end].data;
    }
  }

  /** A walk that has got as far as `end` is the first part of any complete one. */
  lemma {:induction false} WalksAgree(d: Disk, slots: nat, header: Lba, from: Lba, exts: seq<Lba>, data: seq<Lba>,
          end: Lba, all: seq<Lba>, allData: seq<Lba>)
    requires Walks(d, slots, header, from, exts, data, end)
    requires Walks(d, slots, header, from, all, allData, 0)
    ensures exts <= all && data <= allData
    ensures Walks(d, slots, header, end, all[|exts|..], allData[|data|..], 0)
    decreases |exts|
  {
    if exts != [] {
      var k := |d[from].data|;
      WalksAgree(d, slots, header, d[from].next, exts[1..], data[k..], end, all[1..], allData[k..]);
      assert all[|exts|..] == all[1..][|exts[1..]|..];
      assert allData[|data|..] == allData[k..][|data[k..]|..];
      assert exts == [from] + exts[1..] && all == [from] + all[1..];
      assert data == d[from].data + data[k..] && allData == d[from].data + allData[k..];
    } else {
      assert all[0..] == all && allData[0..] == allData;
    }
  }

  lemma NothingAfterTheEnd(d: Disk, slots: nat, header: Lba, exts: seq<Lba>, data: seq<Lba>)
    requires Walks(d, slots, header, 0, exts, data, 0)
    ensures exts == [] && data == []
  {}

  lemma ChainIsTheWalk(d: Disk, f: Format, c: FileChain, exts: seq<Lba>, data: seq<Lba>)
    requires f.payload > 0 && IsChain(d, f, c)
    requires Walks(d, f.slots, c.header, d[c.header].ext, exts, data, 0)
    ensures c.extensions == exts && c.blocks == d[c.header].table + data
  {
    hide Walks, CeilDiv;
    var rest := c.blocks[|d[c.header].table|..];
    WalksAgree(d, f.slots, c.header, d[c.header].ext, exts, data, 0, c.extensions, rest);
    NothingAfterTheEnd(d, f.slots, c.header, c.extensions[|exts|..], rest[|data|..]);
    assert c.blocks == d[c.header].table + rest;
  }

  /** There is at most one chain to find. */
  lemma ChainIsUnique(d: Disk, f: Format, a: FileChain, b: FileChain)
    requires f.payload > 0 && IsChain(d, f, a) && IsChain(d, f, b) && a.header == b.header
    ensures a == b
  {
    ChainIsTheWalk(d, f, b, a.extensions, a.blocks[|d[a.header].table|..]);
  }

  /** Block `index` of a file starts at byte `base`. */
  predicate StartsAt(base: nat, index: nat, payload: nat) {
    base == index * payload
  }

  lemma StartOf(offset: nat, payload: nat)
    requires payload > 0
    ensures StartsAt(Quotient(offset, payload) * payload, Quotient(offset, payload), payload)
    ensures Quotient(offset, payload) * payload <= offset < Quotient(offset, payload) * payload + payload
  {}

  lemma NextStart(base: nat, index: nat, payload: nat)
    ensures StartsAt(base, index, payload) ==> StartsAt(base + payload, index + 1, payload)
  {
    MulMonotone(index, index + 1, payload);
  }

  /** How many of `len` bytes from `offset` a ranged read delivers: none past the end of the
      file, and none past the blocks of a chain that lists too few. */
  function Delivered(c: FileChain, payload: nat, offset: nat, len: nat): nat {
    if offset >= c.size || |c.blocks| * payload <= offset then 0
    else
      var want := if c.size - offset < len then c.size - offset else len;
      if |c.blocks| * payload - offset < want then |c.blocks| * payload - offset else want
  }

  /** Block `i` of the chain is read to deliver `len` bytes from `offset`. */
  predicate Reaches(c: FileChain, payload: nat, offset: nat, len: nat, i: nat) {
    && i < |c.blocks| && offset < c.size && 0 < len
    && i * payload < c.size && i * payload < offset + len && offset < i * payload + payload
  }

  /** Block `i` can be read for the bytes of the file that are in it, and they are `b`. */
  predicate Serves(d: Disk, f: Format, c: FileChain, i: nat, b: Bytes) {
    i < |c.blocks| && |b| == LenAt(c.size, f.payload, i) && Delivers(d, f.ffs, c.header, i, c.blocks[i], b)
  }

  ghost predicate Served(d: Disk, f: Format, c: FileChain, i: nat) {
    exists b :: Serves(d, f, c, i, b)
  }

  /** Where `out`, read from `offset`, and `b`, which starts at `base`, lie over each other they agree. */
  predicate Agree(out: Bytes, offset: nat, b: Bytes, base: int) {
    forall k :: 0 <= k < |out| && base <= offset + k < base + |b| ==> out[k] == b[offset + k - base]
  }

  /** `out` is cut from what the blocks of the chain hold. */
  ghost predicate CutFrom(d: Disk, f: Format, c: FileChain, offset: nat, out: Bytes) {
    forall i: nat, b :: Serves(d, f, c, i, b) ==> Agree(out, offset, b, i * f.payload)
  }

  /** All blocks before block `index` that had to be read could be. */
  ghost predicate ServedBefore(d: Disk, f: Format, c: FileChain, offset: nat, len: nat, index: nat) {
    forall i: nat :: i < index && Reaches(c, f.payload, offset, len, i) ==> Served(d, f, c, i)
  }

  lemma CutFurther(d: Disk, f: Format, c: FileChain, offset: nat, out: Bytes, index: nat, base: nat, got: Bytes,
          skip: nat, take: nat)
    requires f.payload > 0 && CutFrom(d, f, c, offset, out) && Serves(d, f, c, index, got)
    requires StartsAt(base, index, f.payload) && skip + take <= |got| <= f.payload && base + skip == offset + |out|
    ensures CutFrom(d, f, c, offset, out + got[skip..skip + take])
  {
    var more := got[skip..skip + take];
    hide Delivers;
    forall i: nat, b | Serves(d, f, c, i, b)
      ensures Agree(out + more, offset, b, i * f.payload)
    {
      if i == index {
        SameDelivery(d, f.ffs, c.header, i, c.blocks[i], b, got);
      } else if i < index {
        MulMonotone(i + 1, index, f.payload);
        MulMonotone(i, index, f.payload);
      } else {
        MulMonotone(index + 1, i, f.payload);
        MulMonotone(index, i, f.payload);
      }
      assert Agree(out, offset, b, i * f.payload);
    }
  }

  lemma CutNothing(d: Disk, f: Format, c: FileChain, offset: nat)
    ensures CutFrom(d, f, c, offset, [])
  {}

  lemma NothingReached(c: FileChain, payload: nat, offset: nat, len: nat)
    requires offset >= c.size || len == 0
    ensures forall i: nat :: !Reaches(c, payload, offset, len, i)
  {}

  lemma ReachesThis(c: FileChain, payload: nat, offset: nat, len: nat, index: nat, base: nat)
    requires index < |c.blocks| && StartsAt(base, index, payload) && offset < c.size && 0 < len
    requires base < c.size && base < offset + len && offset < base + payload
    ensures Reaches(c, payload, offset, len, index)
  {}

  lemma OneMoreServed(d: Disk, f: Format, c: FileChain, offset: nat, len: nat, index: nat)
    requires ServedBefore(d, f, c, offset, len, index) && Served(d, f, c, index)
    ensures ServedBefore(d, f, c, offset, len, index + 1)
  {}

  /** What can be cut from the blocks of a file that holds `s` is a piece of `s`. */
  lemma HeldIsCut(d: Disk, f: Format, c: FileChain, s: Bytes, offset: nat, len: nat)
    requires f.payload > 0 && |c.blocks| == CeilDiv(c.size, f.payload) && Holds(d, f, c, s)
    ensures forall i: nat :: Reaches(c, f.payload, offset, len, i) ==> Served(d, f, c, i)
    ensures forall out: Bytes :: CutFrom(d, f, c, offset, out) && |out| == Delivered(c, f.payload, offset, len) ==>
                            out == if offset >= |s| then [] else if offset + len <= |s| then s[offset..offset + len]
                                else s[offset..]
  {
    hide Delivers, CeilDiv;
    forall i: nat | i < |c.blocks|
      ensures Serves(d, f, c, i, Chunk(s, f.payload, i)) && Served(d, f, c, i)
    {
      ChunkSize(s, f.payload, i);
    }
    forall out: Bytes | CutFrom(d, f, c, offset, out) && |out| == Delivered(c, f.payload, offset, len)
      ensures forall k :: 0 <= k < |out| ==> offset + k < |s| && out[k] == s[offset + k]
    {
      forall k | 0 <= k < |out|
        ensures offset + k < |s| && out[k] == s[offset + k]
      {
        CutByte(d, f, c, s, offset, out, k);
      }
    }
  }

  lemma CutByte(d: Disk, f: Format, c: FileChain, s: Bytes, offset: nat, out: Bytes, k: nat)
    requires f.payload > 0 && CutFrom(d, f, c, offset, out) && k < |out| && offset + k < |s|
    requires |s| <= |c.blocks| * f.payload
    requires forall i: nat :: i < |c.blocks| ==> Serves(d, f, c, i, Chunk(s, f.payload, i))
    ensures out[k] == s[offset + k]
  {
    hide Serves;
    var i := Quotient(offset + k, f.payload);
    if |c.blocks| <= i { MulMonotone(|c.blocks|, i, f.payload); }
    assert Agree(out, offset, Chunk(s, f.payload, i), i * f.payload);
  }

  /** Reading on from block `index` into the next. */
  lemma RangeStep(d: Disk, f: Format, c: FileChain, offset: nat, len: nat, out: Bytes, index: nat, base: nat,
          got: Bytes, skip: nat, part: Bytes)
    requires f.payload > 0 && index < |c.blocks| && CutFrom(d, f, c, offset, out)
              && ServedBefore(d, f, c, offset, len, index)
    requires StartsAt(base, index, f.payload) && base + skip == offset + |out|
    requires skip + |part| <= |got| <= f.payload && part == got[skip..skip + |part|] && Serves(d, f, c, index, got)
    ensures CutFrom(d, f, c, offset, out + part) && ServedBefore(d, f, c, offset, len, index + 1)
    ensures StartsAt(base + f.payload, index + 1, f.payload) && base + f.payload <= |c.blocks| * f.payload
  {
    hide CutFrom, Serves;
    CutFurther(d, f, c, offset, out, index, base, got, skip, |part|);
    InsideItsBlock(index, |c.blocks|, f.payload, base);
    OneMoreServed(d, f, c, offset, len, index);
  }

  lemma FirstIsNext(d: Disk, f: Format, c: FileChain, offset: nat, len: nat, index: nat, base: nat)
    requires StartsAt(base, index, f.payload) && base <= offset
    ensures ServedBefore(d, f, c, offset, len, index)
  {
    forall i: nat | i < index
      ensures !Reaches(c, f.payload, offset, len, i)
    {
      MulMonotone(i + 1, index, f.payload);
      MulMonotone(i, index, f.payload);
    }
  }

  lemma LastWasRead(d: Disk, f: Format, c: FileChain, offset: nat, len: nat, index: nat, base: nat)
    requires StartsAt(base, index, f.payload) && ServedBefore(d, f, c, offset, len, index)
    requires index >= |c.blocks| || offset + len <= base || c.size <= base
    ensures forall i: nat :: Reaches(c, f.payload, offset, len, i) ==> Served(d, f, c, i)
  {
    forall i: nat | index <= i
      ensures !Reaches(c, f.payload, offset, len, i)
    {
      MulMonotone(index, i, f.payload);
    }
  }

  /** Only a chain that lists too few runs out of blocks before the end of the file. */
  lemma NoSuchBlock(c: FileChain, payload: nat, index: nat, base: nat)
    requires payload > 0 && index >= |c.blocks| && StartsAt(base, index, payload) && base < c.size
    ensures |c.blocks| != CeilDiv(c.size, payload) && |c.blocks| * payload <= base
              && (index == |c.blocks| ==> base == |c.blocks| * payload)
  {
    MulMonotone(|c.blocks|, index, payload);
  }

  lemma InsideItsBlock(index: nat, n: nat, payload: nat, base: nat)
    requires index < n && StartsAt(base, index, payload)
    ensures base + payload <= n * payload
  {
    MulMonotone(index, index + 1, payload);
    MulMonotone(index + 1, n, payload);
  }

  /** A volume open for reading. */
  class Volume {
    const src: Medium
    const f: Format
    const root: Lba

    constructor (src: Medium, f: Format, root: Lba)
      ensures this.src == src && this.f == f && this.root == root
    {
      this.src := src;
      this.f := f;
      this.root := root;
    }

    // ---- Directories ----------------------------------------------------------------

    /** The path a soft link stores. */
    function ReadSoftlink(lba: Lba): Result<Bytes, Error>
      reads src
    {
      if lba >= |src.blocks| then Err(OutOfRange(lba))
      else if !src.blocks[lba].Header? then Err(NotHeader(lba))
      else if !src.blocks[lba].kind.SoftLink? then Err(NotSoftLink(lba))
      else Ok(UpToNul(src.blocks[lba].path))
    }

    /** The entry whose header is block `lba`. */
    function EntryAt(lba: Lba): Result<Block, Error>
      reads src
    {
      if lba >= |src.blocks| then Err(OutOfRange(lba))
      else if !src.blocks[lba].Header? then Err(NotHeader(lba)) else Ok(src.blocks[lba])
    }

    /** The hash table of the root or of a user directory. */
    function TableOf(dir: Lba): Result<seq<Lba>, Error>
      reads src
    {
      var d := src.blocks;
      if dir >= |d| then Err(OutOfRange(dir))
      else if !d[dir].Root? && !d[dir].Header? then Err(NotHeader(dir))
      else if !IsDirectory(d[dir]) then Err(NotDirectory(dir))
      else Ok(HashTable(d[dir]))
    }

    /** Refuse a chain that revisits a block or outruns the volume. */
    function GuardChain(visited: set<Lba>, lba: Lba): Result<(), Error>
      reads src
    {
      if lba in visited then Err(ChainCycle(lba))
      else if |visited| >= |src.blocks| then Err(ChainTooLong(lba)) else Ok(())
    }

    /** Find `name` in directory `dir`: on a volume in order, whose shape is `s`, it never
        fails, it finds whichever entry of `dir` has that name, and it finds none only
        where there is none. */
    method Lookup(dir: Lba, name: Bytes, ghost s: Shape, ghost rank: map<Lba, int>)
            returns (r: Result<Option<Lba>, Error>)
      requires f.slots > 0
      ensures InOrder(src.blocks, f, s, rank) && IsFolder(src.blocks, s, dir) ==> (r.Ok? <==> |name| <= MaxName(f))
      ensures |name| > MaxName(f) ==> r == Err(NameTooLong(|name|, MaxName(f)))
      ensures !(dir < |src.blocks| && IsDirectory(src.blocks[dir])) ==> r.Err?
      ensures InOrder(src.blocks, f, s, rank) && IsFolder(src.blocks, s, dir) && r.Ok? ==>
                if r.value.Some? then Matches(src.blocks, f, s, dir, name, r.value.value)
                else forall y :: !Matches(src.blocks, f, s, dir, name, y)
    {
      hide Grown, Named, SameName, SlotIn;
      ghost var d, trusted := src.blocks, InOrder(src.blocks, f, s, rank) && IsFolder(src.blocks, s, dir);
      if |name| > MaxName(f) {
        return Err(NameTooLong(|name|, MaxName(f)));
      }
      var slot := SlotIn(f, name);
      var table := TableOf(dir);
      if table.Err? {
        return Err(table.error);
      }
      var next := Nth(table.value, slot);
      var visited: set<Lba> := {};
      if trusted { HeadIsEntry(d, f, s, rank, dir, slot); }
      while next != 0
        invariant Walking(d, dir, slot, visited, next)
        invariant forall x :: x in visited ==> x < |d| && d[x].Header? && !SameName(d[x].name, name, f.intl)
        invariant trusted && next != 0 ==> InSlot(d, f, s, rank, dir, slot, next)
        invariant trusted && next != 0 ==> Below(rank, visited, next)
        decreases |d| - |visited|
      {
        if trusted { FitsInVolume(visited, next, |d|); }
        var guard := GuardChain(visited, next);
        if guard.Err? {
          return Err(guard.error);
        }
        var entry := EntryAt(next);
        if entry.Err? {
          return Err(entry.error);
        }
        if SameName(entry.value.name, name, f.intl) {
          return Ok(Some(next));
        }
        if trusted { NextIsEntry(d, f, s, rank, dir, slot, next); }
        visited := visited + {next};
        next := entry.value.chain;
      }
      if trusted {
        DoneWalking(d, dir, slot, visited);
        NothingMissed(d, f, s, rank, dir, name, visited);
      }
      r := Ok(None);
    }

    /** Every entry of directory `dir`, slot by slot and along each chain; on a volume in
        order each of them once, and nothing else. */
    method ReadDir(dir: Lba, ghost s: Shape, ghost rank: map<Lba, int>) returns (r: Result<seq<Lba>, Error>)
      requires f.slots > 0
      ensures InOrder(src.blocks, f, s, rank) && IsFolder(src.blocks, s, dir) ==> r.Ok?
      ensures InOrder(src.blocks, f, s, rank) && IsFolder(src.blocks, s, dir) && r.Ok? ==>
                ListsFolder(src.blocks, s, dir, r.value)
      ensures r.Ok? ==> InWalkOrder(src.blocks, dir, r.value)
      ensures r.Ok? ==> forall x :: x in r.value ==> x < |src.blocks| && src.blocks[x].Header?
    {
      hide Grown, Named, SlotIn, ChainFrom;
      ghost var d, trusted := src.blocks, InOrder(src.blocks, f, s, rank) && IsFolder(src.blocks, s, dir);
      var table := TableOf(dir);
      if table.Err? {
        return Err(table.error);
      }
      if trusted { HeadIsEntry(d, f, s, rank, dir, 0); }
      var out: seq<Lba> := [];
      var visited: set<Lba> := {};
      var i := 0;
      while i < |table.value|
        invariant 0 <= i <= |table.value|
        invariant visited == SetOf(out)
        invariant forall x :: x in out ==> x < |d| && d[x].Header?
        invariant WalksSlots(d, dir, i, out)
        invariant trusted ==> ListsSlots(d, f, s, dir, i, out)
      {
        var more := ReadSlot(dir, i, visited, s, rank);
        if more.Err? {
          return Err(more.error);
        }
        if trusted { SlotListed(d, f, s, rank, dir, i, out, more.value); }
        SetOfBoth(out, more.value);
        OneSlotMore(d, dir, i, out, more.value);
        out := out + more.value;
        visited := visited + SetOf(more.value);
        i := i + 1;
      }
      if trusted { SlotsAreAll(d, f, s, dir, out); }
      r := Ok(out);
    }

    /** The entries of one slot, none of them in `seen`. */
    method ReadSlot(dir: Lba, i: nat, seen: set<Lba>, ghost s: Shape, ghost rank: map<Lba, int>)
            returns (r: Result<seq<Lba>, Error>)
      requires IsFolder(src.blocks, s, dir) || (dir < |src.blocks| && IsDirectory(src.blocks[dir]))
      ensures r.Ok? ==>
                AllHeaders(src.blocks, r.value) && ChainFrom(src.blocks, At(src.blocks[dir], Slot(i)), r.value, 0)
      ensures InOrder(src.blocks, f, s, rank) && IsFolder(src.blocks, s, dir)
                && ElsewhereIn(src.blocks, f, s, dir, i, seen) ==>
                r.Ok? && ListsSlot(src.blocks, f, s, rank, dir, i, r.value)
    {
      hide Grown, Named, SlotIn, Below, InSlot, Coming, Climbing, ElsewhereIn, SetOf, Walking, ListsSlot, AllHeaders,
        AllBelow;
      NothingListed(src.blocks);
      ghost var head := At(src.blocks[dir], Slot(i));
      ghost var d := src.blocks;
      ghost var trusted := InOrder(d, f, s, rank) && IsFolder(d, s, dir) && ElsewhereIn(d, f, s, dir, i, seen);
      var out: seq<Lba> := [];
      var next := Nth(HashTable(src.blocks[dir]), i);
      var visited: set<Lba> := seen;
      ghost var mine: set<Lba> := {};
      StartsWalking(d, dir, i);
      if trusted { StartsClimbing(d, f, s, rank, dir, i); }
      while next != 0
        invariant visited == seen + mine && mine == SetOf(out) && Walking(d, dir, i, mine, next)
        invariant AllHeaders(d, out) && ChainFrom(d, head, out, next)
        invariant trusted ==> Coming(d, f, s, rank, dir, i, mine, next)
        invariant trusted ==> Climbing(d, f, s, rank, dir, i, out)
        decreases |d| - |visited|
      {
        HeadersBelow(d, out);
        if trusted {
          ElsewhereFits(d, f, s, rank, dir, i, seen, mine, next);
          ClimbsOn(d, f, s, rank, dir, i, out, mine, next);
          ComesOn(d, f, s, rank, dir, i, mine, next);
        }
        var guard := GuardChain(visited, next);
        if guard.Err? {
          return Err(guard.error);
        }
        var entry := EntryAt(next);
        if entry.Err? {
          return Err(entry.error);
        }
        WalksOn(d, dir, i, mine, next);
        ChainOneMore(d, head, out, next);
        OneHeaderMore(d, out, next);
        SetOfMore(out, next);
        out := out + [next];
        visited := visited + {next};
        mine := mine + {next};
        next := entry.value.chain;
      }
      assert AllHeaders(d, out);
      if trusted {
        DoneWalking(d, dir, i, mine);
        SlotIsListed(d, f, s, rank, dir, i, out, mine);
      }
      r := Ok(out);
    }

    /** Which block's pointer along slot `i` of `dir` names `target`: 0 for the slot
        itself, none where the chain does not come to `target`. */
    method LocateInHashChain(dir: Lba, i: nat, target: Lba, ghost s: Shape, ghost rank: map<Lba, int>)
            returns (r: Result<Option<Lba>, Error>)
      requires i < f.slots && target != 0
      ensures InOrder(src.blocks, f, s, rank) && IsFolder(src.blocks, s, dir) ==> r.Ok?
      ensures InOrder(src.blocks, f, s, rank) && IsFolder(src.blocks, s, dir) && r.Ok? ==>
                if r.value.Some? then
                  && target in s.up
                  && s.up[target] == if r.value.value == 0 then Edge(dir, Slot(i)) else Edge(r.value.value, Chain)
                else !InSlot(src.blocks, f, s, rank, dir, i, target)
      ensures r == Ok(None) <==> Misses(src.blocks, dir, i, target)
    {
      hide Grown, Named, SlotIn, ChainFrom;
      ghost var d, trusted := src.blocks, InOrder(src.blocks, f, s, rank) && IsFolder(src.blocks, s, dir);
      var table := TableOf(dir);
      if table.Err? {
        return Err(table.error);
      }
      var next := Nth(table.value, i);
      var prev: Lba := 0;
      var steps := 0;
      ghost var seen: set<Lba> := {};
      ghost var path: seq<Lba> := [];
      NoSteps(d, next);
      if trusted { HeadIsEntry(d, f, s, rank, dir, i); }
      while next != 0 && next != target
        invariant ChainFrom(d, At(d[dir], Slot(i)), path, next) && |path| == steps && target !in path
                  && AllHeaders(d, path)
        invariant Walking(d, dir, i, seen, next) && target !in seen && 0 !in seen
        invariant steps == |seen| || !trusted
        invariant steps <= |d|
        invariant if prev == 0 then At(d[dir], Slot(i)) == next
                  else prev in seen && prev < |d| && At(d[prev], Chain) == next
        invariant trusted && next != 0 ==> InSlot(d, f, s, rank, dir, i, next) && Below(rank, seen, next)
        invariant trusted && next != 0 ==> s.up[next] == if prev == 0 then Edge(dir, Slot(i)) else Edge(prev, Chain)
        invariant trusted ==> forall x :: x in seen ==> x < |d|
        decreases |d| - steps
      {
        if trusted { FitsInVolume(seen, next, |d|); }
        steps := steps + 1;
        if steps > |src.blocks| {
          CannotMiss(d, dir, i, path, next, target);
          return Err(ChainTooLong(next));
        }
        var entry := EntryAt(next);
        if entry.Err? {
          CannotMiss(d, dir, i, path, next, target);
          return Err(entry.error);
        }
        ChainOneMore(d, At(d[dir], Slot(i)), path, next);
        path := path + [next];
        if trusted { NextIsEntry(d, f, s, rank, dir, i, next); }
        seen := seen + {next};
        prev := next;
        next := entry.value.chain;
      }
      if trusted && next == 0 {
        DoneWalking(d, dir, i, seen);
        SlotWalkMeets(d, f, s, rank, dir, i, seen, target);
      }
      if next == 0 {
        assert MissedBy(d, path, target);
      } else {
        CannotMiss(d, dir, i, path, next, target);
      }
      r := Ok(if next == 0 then None else Some(prev));
    }

    /** A directory's cache: its blocks in chain order and the records they hold. Nothing
        at all on a format without caches. */
    method ReadDircache(dir: Lba) returns (r: Result<(seq<Lba>, seq<Record>), Error>)
      ensures !f.dircache ==> r == Ok(([], []))
      ensures f.dircache && r.Ok? ==>
                && dir < |src.blocks| && IsDirectory(src.blocks[dir]) && IsCacheOf(src.blocks, dir, r.value.0)
                && r.value.1 == RecordsIn(src.blocks, r.value.0)
      ensures f.dircache ==>
                forall c :: dir < |src.blocks| && IsDirectory(src.blocks[dir]) && IsCacheOf(src.blocks, dir, c) ==>
                r.Ok? && r.value.0 == c
    {
      if !f.dircache {
        return Ok(([], []));
      }
      hide Strung;
      ghost var d := src.blocks;
      var table := TableOf(dir);
      if table.Err? {
        return Err(table.error);
      }
      var head: Lba := At(src.blocks[dir], CacheHead);
      var next: Lba := head;
      var blocks: seq<Lba> := [];
      var records: seq<Record> := [];
      var visited: set<Lba> := {};
      NothingStrung(d, dir, head);
      while next != 0
        invariant Strung(d, dir, head, blocks, next) && NoRepeats(blocks) && visited == SetOf(blocks)
        invariant records == RecordsIn(d, blocks) && forall b :: b in blocks ==> b < |d|
        decreases |d| - |visited|
      {
        if next < |src.blocks| && next !in visited { FitsInVolume(visited, next, |d|); }
        StrungStuck(d, dir, head, blocks, next);
        var guard := GuardChain(visited, next);
        if guard.Err? {
          return Err(guard.error);
        }
        if next >= |src.blocks| {
          return Err(OutOfRange(next));
        }
        var b := src.blocks[next];
        if !b.Cache? {
          return Err(WrongBlockType(next));
        }
        if b.key != next {
          return Err(OwnKeyMismatch(next));
        }
        if b.dir != dir {
          return Err(BlockOwnerMismatch(next));
        }
        StrungOneMore(d, dir, head, blocks, next);
        RecordsOneMore(d, blocks, next);
        SetOfMore(blocks, next);
        records := records + b.records;
        blocks := blocks + [next];
        visited := visited + {next};
        next := b.next;
      }
      StrungIsAll(d, dir, head, blocks);
      r := Ok((blocks, records));
    }

    /** Collect a file's data blocks, walking and verifying every extension block. */
    method ReadFileChain(header: Lba) returns (r: Result<FileChain, Error>)
      requires f.payload > 0
      ensures r.Ok? ==> r.value.header == header && IsChain(src.blocks, f, r.value)
      ensures r.Err? ==> forall c: FileChain :: c.header == header ==> !IsChain(src.blocks, f, c)
    {
      var d := src.blocks;
      if header >= |d| {
        return Err(OutOfRange(header));
      }
      if !d[header].Header? {
        return Err(NotHeader(header));
      }
      if !IsFile(d[header]) {
        return Err(NotFile(header));
      }
      var h := d[header];
      if |h.table| > f.slots {
        return Err(DataPointerCount(header));
      }
      if 0 in h.table {
        return Err(DataPointerHole(header));
      }
      var rest: seq<Lba> := [];
      var extensions: seq<Lba> := [];
      var next: Lba := h.ext;
      while next != 0
        invariant Walks(d, f.slots, header, h.ext, extensions, rest, next)
        invariant NoRepeats([header] + extensions)
        invariant forall x :: x in [header] + extensions ==> x < |d|
        decreases |d| + 1 - |extensions|
      {
        ghost var end := next;
        if next in [header] + extensions {
          CannotBeChain(d, f, header, extensions, rest, next);
          return Err(ChainCycle(next));
        }
        BoundedWalk([header] + extensions, |d|);
        if next >= |d| || !d[next].List? {
          CannotBeChain(d, f, header, extensions, rest, next);
          return Err(if next >= |d| then OutOfRange(next) else WrongBlockType(next));
        }
        var b := d[next];
        if b.key != next || b.owner != header || |b.data| > f.slots || 0 in b.data {
          CannotBeChain(d, f, header, extensions, rest, next);
          return Err(if b.key != next then OwnKeyMismatch(next)
                     else if b.owner != header then BlockOwnerMismatch(next)
                     else if |b.data| > f.slots then DataPointerCount(next) else DataPointerHole(next));
        }
        WalkOneMore(d, f.slots, header, h.ext, extensions, rest, next);
        assert [header] + (extensions + [next]) == ([header] + extensions) + [next];
        rest := rest + b.data;
        extensions := extensions + [next];
        next := b.next;
      }
      var c := FileChain(header, h.size, h.table + rest, extensions);
      assert c.blocks[|h.table|..] == rest;
      if |c.blocks| != CeilDiv(h.size, f.payload) {
        forall a: FileChain | a.header == header
          ensures !IsChain(d, f, a)
        {
          if IsChain(d, f, a) { ChainIsTheWalk(d, f, a, extensions, rest); }
        }
        return Err(FileSizeMismatch(header));
      }
      r := Ok(c);
    }

    /** Deliver the bytes of a chain already collected, a block at a time. A chain that lists
        too few blocks delivers what they hold, one that lists too many has the rest looked at
        for no bytes. */
    method ReadChain(c: FileChain) returns (r: Result<Bytes, Error>)
      requires f.payload > 0
      ensures r.Ok? ==> Hands(src.blocks, f, c, r.value)
      ensures r.Err? ==> forall s :: !Hands(src.blocks, f, c, s)
    {
      hide Chunk, Delivers;
      var d := src.blocks;
      var out: Bytes := [];
      var i := 0;
      var remaining := c.size;
      while i < |c.blocks|
        invariant 0 <= i <= |c.blocks|
        invariant |out| + remaining == c.size
        invariant |out| == (if i * f.payload < c.size then i * f.payload else c.size)
        invariant forall j :: 0 <= j < i ==> Delivers(d, f.ffs, c.header, j, c.blocks[j], Chunk(out, f.payload, j))
      {
        MulMonotone(i, |c.blocks|, f.payload);
        MulMonotone(i + 1, |c.blocks|, f.payload);
        var want := if remaining < f.payload then remaining else f.payload;
        var got := ReadData(c.header, i, c.blocks[i], want);
        if got.Err? {
          forall s | Hands(d, f, c, s)
            ensures |Chunk(s, f.payload, i)| == want && Delivers(d, f.ffs, c.header, i, c.blocks[i],
                      Chunk(s, f.payload, i))
          {
            ChunkSize(s, f.payload, i);
          }
          return Err(got.error);
        }
        NextChunk(d, f, c, i, out, got.value);
        out := out + got.value;
        remaining := remaining - want;
        i := i + 1;
      }
      r := Ok(out);
    }

    /** Deliver `len` bytes from `offset`, touching only the blocks they are in; a range
        that runs off the end, or off the blocks the chain lists, comes back short. `s` is
        any content the file may have. */
    method ReadRange(c: FileChain, offset: nat, len: nat, ghost s: Bytes) returns (r: Result<Bytes, Error>)
      requires f.payload > 0
      ensures r.Ok? <==> forall i: nat :: Reaches(c, f.payload, offset, len, i) ==> Served(src.blocks, f, c, i)
      ensures r.Ok? ==> |r.value| == Delivered(c, f.payload, offset, len) && CutFrom(src.blocks, f, c, offset, r.value)
      ensures |c.blocks| == CeilDiv(c.size, f.payload) && Holds(src.blocks, f, c, s) ==>
                r == Ok(if offset >= |s| then [] else if offset + len <= |s| then s[offset..offset + len]
                    else s[offset..])
    {
      hide Holds, Chunk, Delivers, StartsAt, CeilDiv, Quotient, Served, Serves, ServedBefore, CutFrom, Reaches, LenAt;
      if |c.blocks| == CeilDiv(c.size, f.payload) && Holds(src.blocks, f, c,
          s) { HeldIsCut(src.blocks, f, c, s, offset, len); }
      if offset >= c.size {
        CutNothing(src.blocks, f, c, offset);
        NothingReached(c, f.payload, offset, len);
        return Ok([]);
      }
      r := ReadBlocks(c, offset, len);
    }

    /** The blocks of the range, from the one `offset` is in. */
    method ReadBlocks(c: FileChain, offset: nat, len: nat) returns (r: Result<Bytes, Error>)
      requires f.payload > 0 && offset < c.size
      ensures r.Ok? <==> forall i: nat :: Reaches(c, f.payload, offset, len, i) ==> Served(src.blocks, f, c, i)
      ensures r.Ok? ==> |r.value| == Delivered(c, f.payload, offset, len) && CutFrom(src.blocks, f, c, offset, r.value)
    {
      hide Holds, Chunk, Delivers, StartsAt, CeilDiv, Quotient, Served, Serves, ServedBefore, CutFrom, Reaches, LenAt;
      ghost var d := src.blocks;
      CutNothing(d, f, c, offset);
      var want := if c.size - offset < len then c.size - offset else len;
      var out: Bytes := [];
      var index: nat := Quotient(offset, f.payload);
      StartOf(offset, f.payload);
      var base: nat := index * f.payload;
      var skip: nat := offset - base;
      FirstIsNext(d, f, c, offset, len, index, base);
      if want == 0 { NothingReached(c, f.payload, offset, len); }
      while |out| < want
        invariant |out| <= want && skip < f.payload
        invariant StartsAt(base, index, f.payload) && base + skip >= offset + |out|
        invariant |out| < want ==> base + skip == offset + |out|
        invariant out != [] ==> offset + |out| <= |c.blocks| * f.payload && skip == 0 && index <= |c.blocks|
        invariant CutFrom(d, f, c, offset, out) && ServedBefore(d, f, c, offset, len, index)
        decreases want - |out|
      {
        if index >= |c.blocks| {
          NoSuchBlock(c, f.payload, index, base);
          LastWasRead(d, f, c, offset, len, index, base);
          return Ok(out);
        }
        ReachesThis(c, f.payload, offset, len, index, base);
        var part;
        ghost var got;
        part, got := ReadPart(c, index, base, skip, want - |out|);
        if part.Err? {
          return part;
        }
        RangeStep(d, f, c, offset, len, out, index, base, got, skip, part.value);
        out := out + part.value;
        skip := 0;
        index := index + 1;
        base := base + f.payload;
      }
      if want > 0 { LastWasRead(d, f, c, offset, len, index, base); }
      r := Ok(out);
    }

    /** What block `index`, which starts at `base`, holds from `skip` on, at most `room` bytes. */
    method ReadPart(c: FileChain, index: nat, base: nat, skip: nat, room: nat)
      returns (r: Result<Bytes, Error>, ghost b: Bytes)
      requires f.payload > 0 && index < |c.blocks|
      requires StartsAt(base, index, f.payload) && skip < f.payload && 0 < room && base + skip + room <= c.size
      ensures r.Ok? ==> |r.value| == (if f.payload - skip < room then f.payload - skip else room)
      ensures r.Ok? ==>
                skip + |r.value| <= |b| <= f.payload && r.value == b[skip..skip + |r.value|]
                && Serves(src.blocks, f, c, index, b)
      ensures r.Ok? <==> Served(src.blocks, f, c, index)
    {
      var full := if c.size - base < f.payload then c.size - base else f.payload;
      var take := if full - skip < room then full - skip else room;
      var got := ReadData(c.header, index, c.blocks[index], full);
      assert full == LenAt(c.size, f.payload, index);
      assert got.Ok? ==> Serves(src.blocks, f, c, index, got.value);
      if x :| Serves(src.blocks, f, c, index, x) { assert Delivers(src.blocks, f.ffs, c.header, index, c.blocks[index],
          x); }
      b := if got.Ok? then got.value else [];
      r := if got.Err? then got else Ok(got.value[skip..skip + take]);
    }

    /** One data block's payload, with the cross-references an OFS block carries checked. */
    method ReadData(header: Lba, i: nat, lba: Lba, want: nat) returns (r: Result<Bytes, Error>)
      ensures r.Ok? ==> |r.value| == want && Delivers(src.blocks, f.ffs, header, i, lba, r.value)
      ensures forall s :: |s| == want && Delivers(src.blocks, f.ffs, header, i, lba, s) ==> r == Ok(s)
    {
      var d := src.blocks;
      if lba >= |d| {
        return Err(OutOfRange(lba));
      }
      if f.ffs {
        if !d[lba].Raw? || |d[lba].payload| < want {
          return Err(WrongBlockType(lba));
        }
        forall s: Bytes | |s| == want && Delivers(d, f.ffs, header, i, lba, s)
          ensures s == d[lba].payload[..want]
        {}
        return Ok(d[lba].payload[..want]);
      }
      if !d[lba].Data? {
        return Err(WrongBlockType(lba));
      }
      var b := d[lba];
      if b.owner != header {
        return Err(BlockOwnerMismatch(lba));
      }
      if b.number != i + 1 {
        return Err(DataBlockSequence(lba));
      }
      if |b.payload| != want {
        return Err(DataBlockSize(lba));
      }
      r := Ok(b.payload);
    }
  }

  /** Block `i` of a file of `size` bytes starts inside it. */
  lemma BlockInside(size: nat, payload: nat, i: nat)
    requires payload > 0 && i < CeilDiv(size, payload)
    ensures i * payload < size && (i + 1) * payload == i * payload + payload
    ensures i + 1 == CeilDiv(size, payload) <==> size <= i * payload + payload
  {
    var n := CeilDiv(size, payload);
    MulMonotone(i, n - 1, payload);
    if i + 1 < n { MulMonotone(i + 1, n - 1, payload); }
  }

  /** A block delivers one string of each length. */
  lemma SameDelivery(d: Disk, ffs: bool, header: Lba, i: nat, lba: Lba, s: Bytes, t: Bytes)
    requires Delivers(d, ffs, header, i, lba, s) && Delivers(d, ffs, header, i, lba, t) && |s| == |t|
    ensures s == t
  {}

  lemma NextChunk(d: Disk, f: Format, c: FileChain, i: nat, out: Bytes, got: Bytes)
    requires f.payload > 0 && i < |c.blocks| && |out| <= i * f.payload
    requires |got| <= f.payload && (got != [] ==> |out| == i * f.payload)
    requires Delivers(d, f.ffs, c.header, i, c.blocks[i], got)
    requires forall j :: 0 <= j < i ==> Delivers(d, f.ffs, c.header, j, c.blocks[j], Chunk(out, f.payload, j))
    ensures forall j :: 0 <= j <= i ==> Delivers(d, f.ffs, c.header, j, c.blocks[j], Chunk(out + got, f.payload, j))
  {
    hide Delivers;
    forall j | 0 <= j <= i
      ensures Delivers(d, f.ffs, c.header, j, c.blocks[j], Chunk(out + got, f.payload, j))
    {
      if j < i {
        MulMonotone(j + 1, i, f.payload);
        MulMonotone(j, i, f.payload);
        assert Chunk(out + got, f.payload, j) == Chunk(out, f.payload, j);
      } else {
        assert Chunk(out + got, f.payload, i) == got;
      }
    }
  }

  /** A string is the concatenation of its chunks. */
  lemma ChunksDecide(s: Bytes, t: Bytes, payload: nat, n: nat)
    requires payload > 0 && |s| == |t| && n == CeilDiv(|s|, payload)
    requires forall i :: 0 <= i < n ==> Chunk(s, payload, i) == Chunk(t, payload, i)
    ensures s == t
  {
    forall k | 0 <= k < |s|
      ensures s[k] == t[k]
    {
      var i := Quotient(k, payload);
      if n <= i {
        MulMonotone(n, i, payload);
        assert false;
      }
      assert Chunk(s, payload, i)[k - i * payload] == s[k];
      assert Chunk(t, payload, i)[k - i * payload] == t[k];
    }
  }

  lemma SameChunkLength(s: Bytes, t: Bytes, payload: nat, i: nat)
    requires |s| == |t|
    ensures |Chunk(s, payload, i)| == |Chunk(t, payload, i)|
  {}

  /** A file has at most one content. */
  lemma ContentIsUnique(d: Disk, f: Format, h: Lba, s: Bytes, t: Bytes)
    requires f.payload > 0 && FileIs(d, f, h, s) && FileIs(d, f, h, t)
    ensures s == t
  {
    var a :| IsChain(d, f, a) && a.header == h && Holds(d, f, a, s);
    var b :| IsChain(d, f, b) && b.header == h && Holds(d, f, b, t);
    ChainIsUnique(d, f, a, b);
    hide Walks, CeilDiv, Chunk, IsExtension;
    forall i | 0 <= i < |a.blocks|
      ensures Chunk(s, f.payload, i) == Chunk(t, f.payload, i)
    {
      assert Delivers(d, f.ffs, h, i, a.blocks[i], Chunk(s, f.payload, i));
      assert Delivers(d, f.ffs, h, i, a.blocks[i], Chunk(t, f.payload, i));
      SameChunkLength(s, t, f.payload, i);
    }
    ChunksDecide(s, t, f.payload, |a.blocks|);
  }

  lemma {:induction false} BoundedWalk(s: seq<Lba>, n: nat)
    requires NoRepeats(s) && forall x :: x in s ==> x < n
    ensures |s| <= n
    decreases n
  {
    if s != [] {
      assert s[0] in s;
      if n - 1 in s {
        var i :| 0 <= i < |s| && s[i] == n - 1;
        var t := s[..i] + s[i + 1..];
        assert forall x :: x in t ==> x in s && x != n - 1;
        BoundedWalk(t, n - 1);
      } else {
        BoundedWalk(s, n - 1);
      }
    }
  }

  lemma Repeated(s: seq<Lba>, i: nat, j: nat)
    requires i < j < |s| && s[i] == s[j]
    ensures !NoRepeats(s)
  {}

  /** Where the walk stops short, no chain is there to be found. */
  lemma CannotBeChain(d: Disk, f: Format, header: Lba, exts: seq<Lba>, data: seq<Lba>, end: Lba)
    requires f.payload > 0 && header < |d| && IsFile(d[header]) && end != 0
    requires Walks(d, f.slots, header, d[header].ext, exts, data, end)
    requires end in [header] + exts || !IsExtension(d, f.slots, header, end)
    ensures forall c: FileChain :: c.header == header ==> !IsChain(d, f, c)
  {
    forall c: FileChain | c.header == header
      ensures !IsChain(d, f, c)
    {
      if IsChain(d, f, c) {
        var rest := c.blocks[|d[header].table|..];
        WalksAgree(d, f.slots, header, d[header].ext, exts, data, end, c.extensions, rest);
        assert c.extensions[|exts|] == end;
        var all := [header] + c.extensions;
        if end in [header] + exts {
          var i :| 0 <= i < |exts| + 1 && ([header] + exts)[i] == end;
          Repeated(all, i, |exts| + 1);
        }
      }
    }
  }
}
