/**
 The two passes of an edit over a file's blocks, apart from the directory: which blocks
 are written, with what, and what a reader that still has the old header gets at every
 point of them.
 */
module Passes {
  import opened Words
  import opened Disk
  import opened Forest
  import opened Directories
  import opened Dircache
  import opened Reader
  import opened Chains
  import opened Contents

  /** An edit of file `chain`: `data` at `offset`, `size` bytes in the end. The first `kept`
      blocks stay where they are, all but block `cow`, which is replaced; `blocks` is where
      the new file's blocks are. `eff` is how many of the old blocks the edit builds on. */
  datatype Job = Job(chain: FileChain, offset: nat, data: Bytes, size: nat, eff: nat, kept: nat, cow: Option<nat>,
          blocks: seq<Lba>)

  /** Block `i` of the new file is one no reader has ever been sent to. */
  predicate Untouchable(j: Job, i: nat) {
    i >= j.eff || j.cow == Some(i)
  }

  function After(j: Job, s: Bytes): Bytes {
    Edited(s, j.offset, j.data, j.size)
  }

  ghost predicate JobOk(f: Format, j: Job, s: Bytes) {
    && f.payload > 0 && |s| == j.chain.size && |j.chain.blocks| == CeilDiv(|s|, f.payload)
        && |j.blocks| == CeilDiv(j.size, f.payload)
    && (|s| <= j.size || j.data == [])
    && (j.eff == |j.chain.blocks| || (j.eff == 0 && j.offset == 0 && |s| <= |j.data|))
    && j.kept == Min(j.eff, |j.blocks|)
    && (j.cow.Some? ==> !f.ffs && j.kept > 0 && j.cow.value == j.kept - 1)
    && (!f.ffs && j.kept > 0 ==>
        (j.cow.Some? <==> LenAt(|s|, f.payload, j.kept - 1) != LenAt(j.size, f.payload, j.kept - 1)))
    && (forall i :: 0 <= i < j.kept && !Untouchable(j, i) ==> j.blocks[i] == j.chain.blocks[i])
    && NoRepeats(j.blocks) && NoRepeats(j.chain.blocks)
    && (forall i :: 0 <= i < |j.blocks| && Untouchable(j, i) ==> j.blocks[i] !in BlocksOfChain(j.chain))
  }

  /** A data block as the format has it: content and zeros, or content with its place in
      the file and the block that follows. */
  function DataBlock(f: Format, header: Lba, i: nat, content: Bytes, next: Lba): Block {
    if f.ffs then Raw(content + Zeros(if |content| < f.payload then f.payload - |content| else 0))
    else Data(header, i + 1, next, content)
  }

  function Zeros(n: nat): Bytes {
    seq(n, i => 0)
  }

  lemma DataBlockDelivers(d: Disk, f: Format, header: Lba, i: nat, content: Bytes, next: Lba, lba: Lba)
    requires lba < |d|
    ensures Delivers(d[lba := DataBlock(f, header, i, content, next)], f.ffs, header, i, lba, content)
    ensures IsContent(DataBlock(f, header, i, content, next))
  {}

  /** What a reader of the old length sees of block after block of the new file. */
  function Seen(j: Job, s: Bytes): (v: Bytes)
    ensures |v| == |s|
  {
    Overlaid(s, After(j, s))
  }

  /** A reader of the old header gets the first `i` blocks, `n` bytes, as the edit makes
      them and the rest as they were. */
  ghost predicate TornAt(e: Disk, f: Format, j: Job, s: Bytes, i: nat, n: nat)
    requires f.payload > 0
  {
    Canonical(e, f, j.chain) && StartsAt(n, i, f.payload) && Holds(e, f, j.chain, Torn(s, Seen(j, s), n))
  }

  /** What the reader of the old header gets while the passes are under way. */
  ghost predicate OldStill(e: Disk, f: Format, j: Job, s: Bytes)
    requires f.payload > 0
  {
    exists i, n :: 0 <= i <= j.kept && n >= 0 && TornAt(e, f, j, s, i, n)
  }

  /** It is so in every state from `from` on. */
  ghost predicate Ledger(trail: seq<Disk>, from: nat, f: Format, j: Job, s: Bytes)
    requires f.payload > 0
  {
    from <= |trail| && forall i :: from <= i < |trail| ==> OldStill(trail[i], f, j, s)
  }

  /** Block `i` of the new file is in place. */
  predicate InPlace(e: Disk, f: Format, j: Job, s: Bytes, i: nat)
    requires i < |j.blocks|
  {
    Delivers(e, f.ffs, j.chain.header, i, j.blocks[i], Chunk(After(j, s), f.payload, i))
  }

  // ---- Writes that no reader of the old file notices -------------------------------------------

  lemma UnrelatedWrite(d: Disk, f: Format, j: Job, s: Bytes, i: nat, n: nat, x: Lba, b: Block)
    requires f.payload > 0 && TornAt(d, f, j, s, i, n) && x < |d| && x !in BlocksOfChain(j.chain)
    ensures TornAt(d[x := b], f, j, s, i, n)
  {
    hide Torn, Walks, CeilDiv, LaidOut, Delivers, Chunk;
    CanonicalFramed(d, f, j.chain, d[x := b]);
    ContentFramed(d, f, j.chain, Torn(s, Seen(j, s), n), d[x := b]);
  }

  /** Before anything is written the old file is whole. */
  lemma Untorn(e: Disk, f: Format, j: Job, s: Bytes)
    requires f.payload > 0 && |s| == j.chain.size
    ensures TornAt(e, f, j, s, 0, 0) <==> Canonical(e, f, j.chain) && Holds(e, f, j.chain, s)
  {
    assert Torn(s, Seen(j, s), 0) == s;
  }

  // ---- A kept block ------------------------------------------------------------------------------

  /** The bytes of block `i` change, or its recorded length. */
  predicate BytesChange(j: Job, payload: nat, i: nat) {
    var start, len := i * payload, LenAt(j.size, payload, i);
    Overlaps(start, len, j.offset, j.offset + |j.data|) || Overlaps(start, len, Min(j.chain.size, j.size), j.size)
  }

  lemma KeptLengths(f: Format, j: Job, s: Bytes, i: nat)
    requires JobOk(f, j, s) && i < j.kept && !Untouchable(j, i)
    ensures i < |j.blocks| && i < |j.chain.blocks|
    ensures !f.ffs ==> LenAt(|s|, f.payload, i) == LenAt(j.size, f.payload, i)
    ensures !BytesChange(j, f.payload, i) ==> LenAt(j.size, f.payload, i) <= LenAt(|s|, f.payload, i)
    ensures BytesChange(j, f.payload, i) ==> LenAt(|s|, f.payload, i) <= LenAt(j.size, f.payload, i)
  {
    LenAtInside(|s|, f.payload, i);
    LenAtInside(j.size, f.payload, i);
    if i + 1 < j.kept {
      LenAtFull(|s|, f.payload, i);
      LenAtFull(j.size, f.payload, i);
    }
  }

  /** A kept block the edit passes by is already what the new file needs. */
  lemma PassedBy(d: Disk, f: Format, j: Job, s: Bytes, i: nat, n: nat)
    requires JobOk(f, j, s) && i < j.kept && !Untouchable(j, i) && !BytesChange(j, f.payload, i)
              && StartsAt(n, i, f.payload)
    requires Holds(d, f, j.chain, Torn(s, Seen(j, s), n))
    ensures InPlace(d, f, j, s, i)
    ensures Holds(d, f, j.chain, Torn(s, Seen(j, s), n + f.payload))
  {
    var u, v := After(j, s), Seen(j, s);
    KeptLengths(f, j, s, i);
    UntouchedChunk(s, j.offset, j.data, j.size, f.payload, i, n);
    UntouchedOverlay(s, j.offset, j.data, j.size, f.payload, i, n);
    TornChunkAfter(s, v, f.payload, i, n);
    ChunkSize(s, f.payload, i);
    assert Delivers(d, f.ffs, j.chain.header, i, j.chain.blocks[i], Chunk(s, f.payload, i));
    hide Edited, Seen, Chunk;
    OneBlockOn(d, f, j.chain, s, v, i, n, d);
  }

  /** From one boundary to the next only block `i` may differ. */
  lemma OneBlockOn(d: Disk, f: Format, c: FileChain, s: Bytes, v: Bytes, i: nat, n: nat, e: Disk)
    requires |v| == |s| == c.size && f.payload > 0 && Holds(d, f, c, Torn(s, v, n)) && StartsAt(n, i, f.payload)
              && i < |c.blocks| && |e| == |d|
    requires Delivers(e, f.ffs, c.header, i, c.blocks[i], Chunk(v, f.payload, i))
    requires forall k :: 0 <= k < |c.blocks| && k != i && c.blocks[k] < |d| ==> e[c.blocks[k]] == d[c.blocks[k]]
    ensures Holds(e, f, c, Torn(s, v, n + f.payload))
  {
    hide Torn, Chunk;
    var t := Torn(s, v, n + f.payload);
    assert |t| == |s| by { TornSize(s, v, n + f.payload); }
    forall k | 0 <= k < |c.blocks|
      ensures Delivers(e, f.ffs, c.header, k, c.blocks[k], Chunk(t, f.payload, k))
    {
      SameChunk(s, v, f.payload, i, n, k);
      assert Delivers(d, f.ffs, c.header, k, c.blocks[k], Chunk(Torn(s, v, n), f.payload, k));
    }
  }

  lemma TornSize(s: Bytes, v: Bytes, n: nat)
    requires |v| == |s|
    ensures |Torn(s, v, n)| == |s|
  {}

  /** Block `k`'s bytes, when the new ones reach from block `i` to the next. */
  lemma SameChunk(s: Bytes, v: Bytes, payload: nat, i: nat, n: nat, k: nat)
    requires |v| == |s| && payload > 0 && StartsAt(n, i, payload)
    ensures Chunk(Torn(s, v, n + payload), payload, k) == if k == i then Chunk(v, payload, k)
              else Chunk(Torn(s, v, n), payload, k)
  {
    hide Torn, Chunk;
    if k < i {
      MulMonotone(k + 1, i, payload);
      MulMonotone(k, i, payload);
      TornChunkBefore(s, v, payload, k, n);
      TornChunkBefore(s, v, payload, k, n + payload);
    } else if k > i {
      MulMonotone(i + 1, k, payload);
      MulMonotone(i, k, payload);
      TornChunkAfter(s, v, payload, k, n);
      TornChunkAfter(s, v, payload, k, n + payload);
    } else {
      TornChunkBefore(s, v, payload, i, n + payload);
    }
  }

  /** A kept block rewritten in place: the old file's reader sees the edit in that block. */
  lemma KeptRewritten(d: Disk, f: Format, j: Job, s: Bytes, i: nat, n: nat, next: Lba)
    requires JobOk(f, j, s) && i < j.kept && !Untouchable(j, i) && (f.ffs ==> BytesChange(j, f.payload, i))
              && StartsAt(n, i, f.payload)
    requires Holds(d, f, j.chain, Torn(s, Seen(j, s), n)) && j.blocks[i] < |d|
    ensures var e := d[j.blocks[i] := DataBlock(f, j.chain.header, i, Chunk(After(j, s), f.payload, i), next)];
            InPlace(e, f, j, s, i) && Holds(e, f, j.chain, Torn(s, Seen(j, s), n + f.payload))
  {
    var u, v := After(j, s), Seen(j, s);
    var e := d[j.blocks[i] := DataBlock(f, j.chain.header, i, Chunk(u, f.payload, i), next)];
    KeptLengths(f, j, s, i);
    OverlaidChunk(s, u, f.payload, i);
    ChunkSize(u, f.payload, i);
    DataBlockDelivers(d, f, j.chain.header, i, Chunk(u, f.payload, i), next, j.blocks[i]);
    assert Delivers(e, f.ffs, j.chain.header, i, j.chain.blocks[i], Chunk(v, f.payload, i));
    hide Edited, Seen, Chunk, DataBlock;
    OneBlockOn(d, f, j.chain, s, v, i, n, e);
  }

  // ---- How far the edit has come ------------------------------------------------------------------

  /** Of the blocks no reader was sent to the first `upTo` are written, of the others the
      first `i`, and the reader of the old header gets what that makes of the old file. */
  ghost predicate Stage(e: Disk, f: Format, j: Job, s: Bytes, upTo: nat, i: nat, n: nat)
    requires f.payload > 0
  {
    && i <= j.kept && TornAt(e, f, j, s, i, n)
    && forall k :: 0 <= k < |j.blocks| && Done(j, upTo, i, k) ==> InPlace(e, f, j, s, k)
  }

  predicate Done(j: Job, upTo: nat, i: nat, k: nat) {
    if Untouchable(j, k) then k < upTo else k < i
  }

  lemma StageIsOld(e: Disk, f: Format, j: Job, s: Bytes, upTo: nat, i: nat, n: nat)
    requires f.payload > 0 && Stage(e, f, j, s, upTo, i, n)
    ensures OldStill(e, f, j, s)
  {}

  lemma StartStage(e: Disk, f: Format, j: Job, s: Bytes)
    requires f.payload > 0 && |s| == j.chain.size && Canonical(e, f, j.chain) && Holds(e, f, j.chain, s)
    ensures Stage(e, f, j, s, 0, 0, 0)
  {
    Untorn(e, f, j, s);
  }

  /** Blocks no reader was sent to come last. */
  lemma UntouchableTail(f: Format, j: Job, s: Bytes, k: nat, i: nat)
    requires JobOk(f, j, s) && k <= i < |j.blocks| && Untouchable(j, k)
    ensures Untouchable(j, i)
  {}

  lemma KeptComesFirst(f: Format, j: Job, s: Bytes, i: nat)
    requires JobOk(f, j, s) && i < |j.blocks| && !Untouchable(j, i)
    ensures i < j.kept
  {}

  lemma InPlaceStays(e: Disk, f: Format, j: Job, s: Bytes, k: nat, x: Lba, b: Block)
    requires k < |j.blocks| && InPlace(e, f, j, s, k) && j.blocks[k] != x && x < |e|
    ensures InPlace(e[x := b], f, j, s, k)
  {}

  lemma JobFacts(f: Format, j: Job, s: Bytes)
    requires JobOk(f, j, s)
    ensures f.payload > 0 && NoRepeats(j.blocks) && j.kept <= |j.blocks| && j.kept <= j.eff
    ensures forall i :: 0 <= i < |j.blocks| && Untouchable(j, i) ==> j.blocks[i] !in BlocksOfChain(j.chain)
  {}

  lemma DataBlockPlaced(e: Disk, f: Format, j: Job, s: Bytes, p: nat, next: Lba)
    requires p < |j.blocks| && j.blocks[p] < |e|
    ensures InPlace(e[j.blocks[p] := DataBlock(f, j.chain.header, p, Chunk(After(j, s), f.payload, p), next)], f, j, s,
              p)
  {
    DataBlockDelivers(e, f, j.chain.header, p, Chunk(After(j, s), f.payload, p), next, j.blocks[p]);
  }

  /** Writing one of the blocks nobody was sent to. */
  lemma FreshStep(e: Disk, f: Format, j: Job, s: Bytes, p: nat, b: Block)
    requires JobOk(f, j, s) && p < |j.blocks| && Untouchable(j, p) && j.blocks[p] < |e| && Stage(e, f, j, s, p, 0, 0)
    requires InPlace(e[j.blocks[p] := b], f, j, s, p)
    ensures Stage(e[j.blocks[p] := b], f, j, s, p + 1, 0, 0)
  {
    hide Canonical, Holds, Torn, Seen, InPlace, JobOk, After, Chunk, TornAt;
    JobFacts(f, j, s);
    assert j.blocks[p] !in BlocksOfChain(j.chain);
    UnrelatedWrite(e, f, j, s, 0, 0, j.blocks[p], b);
    WrittenStage(e, f, j, s, p, 0, p, b, p + 1, 0);
  }

  lemma WrittenStage(e: Disk, f: Format, j: Job, s: Bytes, upTo: nat, i: nat, p: nat, b: Block, upTo2: nat, i2: nat)
    requires forall k: nat :: Done(j, upTo2, i2, k) ==> k == p || Done(j, upTo, i, k)
    requires f.payload > 0 && NoRepeats(j.blocks) && p < |j.blocks| && j.blocks[p] < |e|
    requires forall k :: 0 <= k < |j.blocks| && Done(j, upTo, i, k) ==> InPlace(e, f, j, s, k)
    requires InPlace(e[j.blocks[p] := b], f, j, s, p)
    ensures forall k :: 0 <= k < |j.blocks| && Done(j, upTo2, i2, k) ==> InPlace(e[j.blocks[p] := b], f, j, s, k)
  {
    hide InPlace, Done;
    forall k | 0 <= k < |j.blocks| && k != p && Done(j, upTo2, i2, k)
      ensures InPlace(e[j.blocks[p] := b], f, j, s, k)
    {
      InPlaceStays(e, f, j, s, k, j.blocks[p], b);
    }
  }

  /** Rewriting a kept block. */
  lemma KeptStep(e: Disk, f: Format, j: Job, s: Bytes, p: nat, n: nat, next: Lba)
    requires JobOk(f, j, s) && p < j.kept && !Untouchable(j, p) && (f.ffs ==> BytesChange(j, f.payload, p))
    requires j.blocks[p] < |e| && Stage(e, f, j, s, |j.blocks|, p, n)
    ensures Stage(e[j.blocks[p] := DataBlock(f, j.chain.header, p, Chunk(After(j, s), f.payload, p), next)], f, j, s,
              |j.blocks|, p + 1, n + f.payload)
  {
    hide DataBlock, Canonical, Holds, Torn, Seen, JobOk, After, Chunk, BytesChange, InPlace;
    JobFacts(f, j, s);
    var b := DataBlock(f, j.chain.header, p, Chunk(After(j, s), f.payload, p), next);
    var h := e[j.blocks[p] := b];
    KeptRewritten(e, f, j, s, p, n, next);
    NextStart(n, p, f.payload);
    KeptIsOld(f, j, s, p);
    OldContent(e, f, j, s, p, n);
    ContentIsNoTable(e, f, j.chain, j.blocks[p], b);
    WrittenStage(e, f, j, s, |j.blocks|, p, p, b, |j.blocks|, p + 1);
    assert TornAt(h, f, j, s, p + 1, n + f.payload);
  }

  lemma KeptIsOld(f: Format, j: Job, s: Bytes, p: nat)
    requires JobOk(f, j, s) && p < j.kept && !Untouchable(j, p)
    ensures p < |j.chain.blocks| && j.blocks[p] == j.chain.blocks[p]
  {}

  lemma OldContent(e: Disk, f: Format, j: Job, s: Bytes, p: nat, n: nat)
    requires f.payload > 0 && TornAt(e, f, j, s, p, n) && p < |j.chain.blocks|
    ensures j.chain.blocks[p] < |e| && IsContent(e[j.chain.blocks[p]])
  {
    hide Canonical, Torn, Chunk;
    assert Delivers(e, f.ffs, j.chain.header, p, j.chain.blocks[p], Chunk(Torn(s, Seen(j, s), n), f.payload, p));
  }

  /** Writing a data block leaves the tables. */
  lemma ContentIsNoTable(e: Disk, f: Format, c: FileChain, x: Lba, b: Block)
    requires f.payload > 0 && Canonical(e, f, c) && x < |e| && IsContent(e[x])
    ensures Canonical(e[x := b], f, c)
  {
    hide Walks, CeilDiv, LaidOut;
    CanonicalFramedAt(e, f, c, x);
    CanonicalFramed(e, f, c, e[x := b]);
  }

  lemma CanonicalFramedAt(e: Disk, f: Format, c: FileChain, x: Lba)
    requires f.payload > 0 && Canonical(e, f, c) && x < |e| && IsContent(e[x])
    ensures x != c.header && x !in c.extensions
  {
    WalkIsLists(e, f.slots, c.header, e[c.header].ext, c.extensions, c.blocks[|e[c.header].table|..], 0);
  }

  /** A kept block already right. */
  lemma PassedStep(e: Disk, f: Format, j: Job, s: Bytes, p: nat, n: nat)
    requires JobOk(f, j, s) && p < j.kept && !Untouchable(j, p) && !BytesChange(j, f.payload, p)
    requires Stage(e, f, j, s, |j.blocks|, p, n)
    ensures Stage(e, f, j, s, |j.blocks|, p + 1, n + f.payload)
  {
    hide Canonical, Holds, Torn, Seen, InPlace, JobOk, BytesChange;
    JobFacts(f, j, s);
    PassedBy(e, f, j, s, p, n);
    NextStart(n, p, f.payload);
  }

  /** A write that is about neither the old file's blocks nor the new one's. */
  lemma OtherStep(e: Disk, f: Format, j: Job, s: Bytes, upTo: nat, i: nat, n: nat, x: Lba, b: Block)
    requires f.payload > 0 && Stage(e, f, j, s, upTo, i, n) && x < |e| && x !in BlocksOfChain(j.chain) && x !in j.blocks
    ensures Stage(e[x := b], f, j, s, upTo, i, n)
  {
    UnrelatedWrite(e, f, j, s, i, n, x, b);
    hide TornAt, InPlace;
    forall k | 0 <= k < |j.blocks| && Done(j, upTo, i, k)
      ensures InPlace(e[x := b], f, j, s, k)
    {
      InPlaceStays(e, f, j, s, k, x, b);
    }
  }

  /** One more state. */
  lemma Logs(trail: seq<Disk>, from: nat, f: Format, j: Job, s: Bytes)
    requires f.payload > 0 && |trail| > 0 && from < |trail|
    requires Ledger(trail[..|trail| - 1], from, f, j, s) && OldStill(trail[|trail| - 1], f, j, s)
    ensures Ledger(trail, from, f, j, s)
  {
    hide OldStill;
    var before := trail[..|trail| - 1];
    forall i | from <= i < |trail|
      ensures OldStill(trail[i], f, j, s)
    {
      if i < |trail| - 1 { assert before[i] == trail[i]; }
    }
  }
}
