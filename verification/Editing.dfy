/**
 Writing a file's contents: one implementation behind write, append and truncate. New
 blocks are written first and reached last, by the one header write that commits the
 edit; only whole blocks the edit keeps are rewritten in place.
 */
module Editing {
  import opened Words
  import opened Disk
  import opened Allocation
  import opened Names
  import opened Forest
  import opened Directories
  import opened Dircache
  import opened Protocol
  import opened Reader
  import opened Steps
  import opened Mutation
  import opened Creation
  import opened Removal
  import opened Chains
  import opened Contents
  import opened Passes
  import opened Commits
  import opened Drafting
  import opened Survival

  // ---- One block ------------------------------------------------------------------------------------

  /** What block `i` of the new file holds: whatever the old file had there survives unless
      the write covers it, read back through the ranged read. `t` is what the old file reads
      as now, which in block `i` is what it always was. */
  method FillBlock(m: Mutator, j: Job, i: nat, ghost s: Bytes, ghost t: Bytes) returns (r: Result<Bytes, MutateError>)
    requires JobOk(m.vol.f, j, s) && i < |j.blocks| && Holds(m.vol.src.blocks, m.vol.f, j.chain, t) && |t| == |s|
    requires i < j.eff ==> Chunk(t, m.vol.f.payload, i) == Chunk(s, m.vol.f.payload, i)
    ensures r.Ok? && r.value == Chunk(After(j, s), m.vol.f.payload, i)
  {
    hide Holds, Chunk, Edited, Filled, CeilDiv;
    var p := m.vol.f.payload;
    var start: nat := i * p;
    var len := LenAt(j.size, p, i);
    var keep := if i < j.eff && LenAt(j.chain.size, p, i) < len then LenAt(j.chain.size, p, i) else if i < j.eff
        then len else 0;
    KeepIsInside(m.vol.f, j, s, i, start, keep);
    var was: Bytes := [];
    if keep > 0 {
      var got := m.vol.ReadRange(j.chain, start, keep, t);
      SameBytes(s, t, p, i, start, keep);
      match got {
        case Err(e) => return Err(Read(e));
        case Ok(bytes) => was := bytes;
      }
    }
    FilledIsChunk(s, j.offset, j.data, j.size, p, i, start, keep);
    r := Ok(Filled(was, len, start, j.offset, j.data));
  }

  /** The two chunks are alike, so what is read of one is what is there of the other. */
  lemma SameBytes(s: Bytes, t: Bytes, payload: nat, i: nat, start: nat, keep: nat)
    requires |s| == |t| && start == i * payload && start + keep <= |s| && 0 < keep <= payload
              && Chunk(t, payload, i) == Chunk(s, payload, i)
    ensures t[start..start + keep] == s[start..start + keep]
  {
    var a, b := t[start..start + keep], s[start..start + keep];
    forall k | 0 <= k < keep
      ensures a[k] == b[k]
    {
      assert a[k] == Chunk(t, payload, i)[k] && b[k] == Chunk(s, payload, i)[k];
    }
  }

  /** What the edit keeps of block `i` is inside the old file, and what it does not keep is
      past the old end or under the new data. */
  lemma KeepIsInside(f: Format, j: Job, s: Bytes, i: nat, start: nat, keep: nat)
    requires JobOk(f, j, s) && i < |j.blocks| && start == i * f.payload
    requires keep == if i < j.eff && LenAt(|s|, f.payload, i) < LenAt(j.size, f.payload, i)
              then LenAt(|s|, f.payload, i)
                     else if i < j.eff then LenAt(j.size, f.payload, i) else 0
    ensures keep <= LenAt(j.size, f.payload, i) <= f.payload && (keep > 0 ==> start + keep <= |s|)
    ensures forall k :: start + keep <= k < |s| && k < j.size && k < start + f.payload ==> InData(k, j.offset, |j.data|)
    ensures keep > 0 ==> start < |s|
  {
    LenAtInside(j.size, f.payload, i);
    if i < j.eff {
      LenAtInside(|s|, f.payload, i);
    } else if j.eff == |j.chain.blocks| {
      LenAtOutside(|s|, f.payload, i);
    }
  }

  // ---- An edit under way ---------------------------------------------------------------------------

  /** Between two writes of an edit before it commits: the volume is in order, the blocks
      of `own` are the operation's, the old file has been readable all along. */
  ghost predicate Going(m: Mutator, j: Job, s: Bytes, own: set<Lba>, from: nat)
    reads m, m.alloc, m.vol.src
  {
    && m.Valid() && JobOk(m.vol.f, j, s) && Ledger(m.vol.src.trail, from, m.vol.f, j, s)
    && AllMine(m, own)
    && (forall k :: 0 <= k < |j.blocks| && Untouchable(j, k) ==> j.blocks[k] in own)
    && m.shape.Owns(j.chain.header) && BlocksOfChain(j.chain) <= m.busy
  }

  ghost predicate AllMine(m: Mutator, own: set<Lba>)
    reads m`live, m`shape, m`base, m`origin, m`busy, m.vol.src, m.alloc`words
  {
    forall x: Lba :: x in own ==> m.Mine(x)
  }

  lemma GoingFacts(m: Mutator, j: Job, s: Bytes, own: set<Lba>, from: nat)
    requires Going(m, j, s, own, from)
    ensures m.vol.f.payload > 0 && |s| == j.chain.size && NoRepeats(j.blocks) && from <= |m.vol.src.trail|
    ensures j.kept <= |j.blocks| && j.kept <= j.eff
  {
    hide Mutator.Steady, Rooted, AllMine;
  }

  lemma OwnFacts(m: Mutator, j: Job, s: Bytes, own: set<Lba>, from: nat, x: Lba)
    requires Going(m, j, s, own, from) && x in own
    ensures m.Mine(x) && x < |m.vol.src.blocks|
  {
    hide Ledger, JobOk, Orderly;
    m.SameLength();
  }

  /** A block written that nothing in use points to. */
  method PutOwn(m: Mutator, ghost j: Job, x: Lba, b: Block, ghost s: Bytes, ghost own: set<Lba>, ghost from: nat)
    requires Going(m, j, s, own, from) && x in own && x < |m.vol.src.blocks|
    requires OldStill(m.vol.src.blocks[x := b], m.vol.f, j, s)
    modifies m.vol.src
    ensures Going(m, j, s, own, from) && m.Entries() == old(m.Entries())
    ensures m.vol.src.blocks == old(m.vol.src.blocks)[x := b]
  {
    hide Mutator.Ready, Orderly, Mutation.Kept, Rooted, Tree, Ledger, JobOk, OldStill, Mutator.Unused;
    m.MineFacts(x);
    GoingFacts(m, j, s, own, from);
    m.PutLoose(x, b);
    assert m.vol.src.trail[..|m.vol.src.trail| - 1] == old(m.vol.src.trail);
    Logs(m.vol.src.trail, from, m.vol.f, j, s);
  }

  /** Pass 0: the blocks nothing reaches. */
  method WriteFresh(m: Mutator, j: Job, ghost s: Bytes, ghost own: set<Lba>, ghost from: nat)
          returns (r: Result<(), MutateError>)
    requires Going(m, j, s, own, from) && m.vol.f.payload > 0 && Stage(m.vol.src.blocks, m.vol.f, j, s, 0, 0, 0)
    modifies m.vol.src
    ensures r.Ok? && Going(m, j, s, own, from) && m.Entries() == old(m.Entries())
    ensures Stage(m.vol.src.blocks, m.vol.f, j, s, |j.blocks|, 0, 0)
  {
    hide Going, Stage, Tree;
    var i := 0;
    while i < |j.blocks|
      invariant 0 <= i <= |j.blocks| && Going(m, j, s, own, from) && m.Entries() == old(m.Entries())
      invariant Stage(m.vol.src.blocks, m.vol.f, j, s, i, 0, 0)
    {
      if Untouchable(j, i) {
        r := WriteFreshBlock(m, j, i, s, own, from);
        if r.Err? {
          return;
        }
      } else {
        NotThisPass(m.vol.src.blocks, m.vol.f, j, s, i);
      }
      i := i + 1;
    }
    r := Ok(());
  }

  lemma NotThisPass(e: Disk, f: Format, j: Job, s: Bytes, i: nat)
    requires f.payload > 0 && Stage(e, f, j, s, i, 0, 0) && i < |j.blocks| && !Untouchable(j, i)
    ensures Stage(e, f, j, s, i + 1, 0, 0)
  {
    hide TornAt, InPlace;
  }

  method WriteFreshBlock(m: Mutator, j: Job, i: nat, ghost s: Bytes, ghost own: set<Lba>, ghost from: nat)
          returns (r: Result<(), MutateError>)
    requires Going(m, j, s, own, from) && m.vol.f.payload > 0 && i < |j.blocks| && Untouchable(j, i)
    requires Stage(m.vol.src.blocks, m.vol.f, j, s, i, 0, 0)
    modifies m.vol.src
    ensures r.Ok? && Going(m, j, s, own, from) && m.Entries() == old(m.Entries())
    ensures Stage(m.vol.src.blocks, m.vol.f, j, s, i + 1, 0, 0)
  {
    hide Stage, Tree, DataBlock, Mutator.Valid, AllMine, Ledger, Holds, Canonical, JobOk;
    StageReads(m.vol.src.blocks, m.vol.f, j, s, i, 0, 0);
    GoingFacts(m, j, s, own, from);
    OwnFacts(m, j, s, own, from, j.blocks[i]);
    Untorn(m.vol.src.blocks, m.vol.f, j, s);
    var content := FillBlock(m, j, i, s, s);
    match content {
      case Err(e) => r := Err(e);
      case Ok(bytes) =>
        var b := DataBlock(m.vol.f, j.chain.header, i, bytes, NextIn(j.blocks, i, 0));
        DataBlockPlaced(m.vol.src.blocks, m.vol.f, j, s, i, NextIn(j.blocks, i, 0));
        FreshStep(m.vol.src.blocks, m.vol.f, j, s, i, b);
        StageIsOld(m.vol.src.blocks[j.blocks[i] := b], m.vol.f, j, s, i + 1, 0, 0);
        PutOwn(m, j, j.blocks[i], b, s, own, from);
        r := Ok(());
    }
  }

  lemma StageReads(e: Disk, f: Format, j: Job, s: Bytes, upTo: nat, i: nat, n: nat)
    requires f.payload > 0 && Stage(e, f, j, s, upTo, i, n)
    ensures TornAt(e, f, j, s, i, n) && i <= j.kept
  {}

  // ---- Pass 1: blocks the old file reaches ---------------------------------------------------------------

  method WriteKept(m: Mutator, j: Job, ghost s: Bytes, ghost own: set<Lba>, ghost from: nat)
    returns (r: Result<(), MutateError>, ghost last: nat, ghost n: nat)
    requires Going(m, j, s, own, from) && m.vol.f.payload > 0
              && Stage(m.vol.src.blocks, m.vol.f, j, s, |j.blocks|, 0, 0)
    modifies m.vol.src
    ensures r.Ok? && Going(m, j, s, own, from) && m.Entries() == old(m.Entries())
    ensures Stage(m.vol.src.blocks, m.vol.f, j, s, |j.blocks|, last, n)
    ensures forall k :: last <= k < |j.blocks| ==> Untouchable(j, k)
  {
    hide Going, Stage, Tree, Untouchable, BytesChange;
    var i := 0;
    last, n := 0, 0;
    while i < |j.blocks|
      invariant 0 <= i <= |j.blocks| && Going(m, j, s, own, from) && m.Entries() == old(m.Entries())
      invariant last <= i && Stage(m.vol.src.blocks, m.vol.f, j, s, |j.blocks|, last, n)
      invariant forall k :: last <= k < i ==> Untouchable(j, k)
    {
      if !Untouchable(j, i) {
        StillKept(m, j, s, own, from, i, last);
        var nextChanges := !m.vol.f.ffs && NextIn(j.chain.blocks, i, 0) != NextIn(j.blocks, i, 0);
        if BytesChange(j, m.vol.f.payload, i) || nextChanges {
          r := WriteKeptBlock(m, j, i, s, own, from, n);
          if r.Err? {
            return;
          }
        } else {
          PassesBy(m, j, s, own, from, i, n);
        }
        last, n := last + 1, n + m.vol.f.payload;
      }
      i := i + 1;
    }
    r := Ok(());
  }

  lemma StillKept(m: Mutator, j: Job, s: Bytes, own: set<Lba>, from: nat, i: nat, last: nat)
    requires Going(m, j, s, own, from) && i < |j.blocks| && !Untouchable(j, i) && last <= i
    requires forall k :: last <= k < i ==> Untouchable(j, k)
    ensures last == i && i < j.kept && i < |j.chain.blocks|
  {
    hide Mutator.Valid, AllMine, Ledger, JobOk, Untouchable;
    GoingFacts(m, j, s, own, from);
    if last < i { UntouchableTail(m.vol.f, j, s, last, i); }
    KeptComesFirst(m.vol.f, j, s, i);
    KeptIsOld(m.vol.f, j, s, i);
  }

  lemma PassesBy(m: Mutator, j: Job, s: Bytes, own: set<Lba>, from: nat, i: nat, n: nat)
    requires Going(m, j, s, own, from) && m.vol.f.payload > 0 && i < j.kept && !Untouchable(j, i)
              && !BytesChange(j, m.vol.f.payload, i)
    requires Stage(m.vol.src.blocks, m.vol.f, j, s, |j.blocks|, i, n)
    ensures Stage(m.vol.src.blocks, m.vol.f, j, s, |j.blocks|, i + 1, n + m.vol.f.payload)
  {
    hide Mutator.Valid, AllMine, Ledger, Stage, JobOk, BytesChange;
    PassedStep(m.vol.src.blocks, m.vol.f, j, s, i, n);
  }

  method WriteKeptBlock(m: Mutator, j: Job, i: nat, ghost s: Bytes, ghost own: set<Lba>, ghost from: nat, ghost n: nat)
          returns (r: Result<(), MutateError>)
    requires Going(m, j, s, own, from) && m.vol.f.payload > 0 && i < j.kept && i < |j.blocks| && !Untouchable(j, i)
    requires m.vol.f.ffs ==> BytesChange(j, m.vol.f.payload, i)
    requires Stage(m.vol.src.blocks, m.vol.f, j, s, |j.blocks|, i, n)
    modifies m.vol.src
    ensures r.Ok? && Going(m, j, s, own, from) && m.Entries() == old(m.Entries())
    ensures Stage(m.vol.src.blocks, m.vol.f, j, s, |j.blocks|, i + 1, n + m.vol.f.payload)
  {
    hide Stage, Tree, DataBlock, Mutator.Valid, AllMine, Ledger, Holds, Canonical, JobOk, Torn, Seen, Chunk,
      BytesChange;
    GoingFacts(m, j, s, own, from);
    StageReads(m.vol.src.blocks, m.vol.f, j, s, |j.blocks|, i, n);
    KeptIsOld(m.vol.f, j, s, i);
    OldContent(m.vol.src.blocks, m.vol.f, j, s, i, n);
    TornChunkAfter(s, Seen(j, s), m.vol.f.payload, i, n);
    var content := FillBlock(m, j, i, s, Torn(s, Seen(j, s), n));
    match content {
      case Err(e) => r := Err(e);
      case Ok(bytes) =>
        var b := DataBlock(m.vol.f, j.chain.header, i, bytes, NextIn(j.blocks, i, 0));
        DataBlockDelivers(m.vol.src.blocks, m.vol.f, j.chain.header, i, bytes, NextIn(j.blocks, i, 0), j.blocks[i]);
        KeptStep(m.vol.src.blocks, m.vol.f, j, s, i, n, NextIn(j.blocks, i, 0));
        StageIsOld(m.vol.src.blocks[j.blocks[i] := b], m.vol.f, j, s, |j.blocks|, i + 1, n + m.vol.f.payload);
        PutKept(m, j, i, b, s, own, from);
        r := Ok(());
    }
  }

  /** A kept block rewritten where it is. */
  method PutKept(m: Mutator, j: Job, i: nat, b: Block, ghost s: Bytes, ghost own: set<Lba>, ghost from: nat)
    requires Going(m, j, s, own, from) && i < |j.blocks| && i < |j.chain.blocks| && j.blocks[i] == j.chain.blocks[i]
    requires j.blocks[i] < |m.vol.src.blocks| && IsContent(m.vol.src.blocks[j.blocks[i]]) && IsContent(b)
    requires m.vol.f.payload > 0 && Canonical(m.vol.src.blocks, m.vol.f, j.chain)
    requires OldStill(m.vol.src.blocks[j.blocks[i] := b], m.vol.f, j, s)
    modifies m.vol.src
    ensures Going(m, j, s, own, from) && m.Entries() == old(m.Entries())
    ensures m.vol.src.blocks == old(m.vol.src.blocks)[j.blocks[i] := b]
  {
    hide Mutator.Ready, Orderly, Mutation.Kept, Rooted, Tree, Ledger, JobOk, OldStill, FreeOnDisk, Canonical,
      Mutator.Unused;
    GoingFacts(m, j, s, own, from);
    OldBlockOwned(m, j, i);
    m.PutContent(j.blocks[i], b);
    assert m.vol.src.trail[..|m.vol.src.trail| - 1] == old(m.vol.src.trail);
    Logs(m.vol.src.trail, from, m.vol.f, j, s);
  }

  lemma OldBlockOwned(m: Mutator, j: Job, i: nat)
    requires m.Valid() && m.shape.Owns(j.chain.header) && i < |j.chain.blocks| && m.vol.f.payload > 0
    requires Canonical(m.vol.src.blocks, m.vol.f, j.chain)
    ensures m.shape.Owns(j.chain.blocks[i]) && j.chain.blocks[i] in BlocksOfChain(j.chain)
  {
    hide Mutator.Ready, Named, Mutation.Kept, Rooted, IsChain, Grown;
    m.InOrderNow();
    ChainIsOwned(m.vol.src.blocks, m.vol.f, m.shape, j.chain);
    assert j.chain.blocks[i] in j.chain.blocks;
  }

  // ---- The extension blocks ----------------------------------------------------------------------------------

  /** What is left for the extension blocks from the `k`th on. */
  function Rest(blocks: seq<Lba>, slots: nat, k: nat): seq<Lba> {
    blocks[Min(GroupEnd(k, slots), |blocks|)..]
  }

  lemma GroupEnds(n: nat, slots: nat, k: nat)
    requires slots > 0
    ensures GroupEnd(k, slots) == slots + k * slots && GroupEnd(k + 1, slots) == GroupEnd(k, slots) + slots
    ensures k < ExtCount(n, slots) <==> GroupEnd(k, slots) < n
  {
    MulMonotone(k, k + 1, slots);
    MulMonotone(k + 1, k + 2, slots);
    var q := ExtCount(n, slots);
    if k < q { MulMonotone(k, q - 1, slots); }
    if q <= k { MulMonotone(q, k, slots); }
  }

  /** What extension block `k` lists, and what is left for those after it. */
  lemma RestSplits(blocks: seq<Lba>, slots: nat, k: nat)
    requires slots > 0 && k < ExtCount(|blocks|, slots)
    ensures GroupEnd(k, slots) < |blocks|
    ensures var rest, first := Rest(blocks, slots, k), GroupEnd(k, slots);
            && rest != [] && rest[..Min(slots, |rest|)] == blocks[first..first + Min(slots, |blocks| - first)]
            && rest[Min(slots, |rest|)..] == Rest(blocks, slots, k + 1)
  {
    hide GroupEnd, ExtCount;
    GroupEnds(|blocks|, slots, k);
  }

  lemma ExtsSplit(exts: seq<Lba>, k: nat)
    requires k < |exts|
    ensures exts[k..][1..] == exts[k + 1..] && exts[k..][0] == exts[k] && First(exts[k + 1..]) == NextIn(exts, k, 0)
  {}

  /** One more extension block, pointing on to those that are there. */
  lemma OneMoreExt(e: Disk, slots: nat, h: Lba, blocks: seq<Lba>, exts: seq<Lba>, k: nat)
    requires slots > 0 && |exts| == ExtCount(|blocks|, slots) && k < |exts| && NoRepeats(exts) && 0 < exts[k] < |e|
    requires LaidOut(e, slots, h, exts[k + 1..], Rest(blocks, slots, k + 1))
    ensures GroupEnd(k, slots) < |blocks|
    ensures var data := blocks[GroupEnd(k, slots)..GroupEnd(k, slots) + Min(slots, |blocks| - GroupEnd(k, slots))];
            LaidOut(e[exts[k] := List(exts[k], h, data, NextIn(exts, k, 0))], slots, h, exts[k..],
                Rest(blocks, slots, k))
  {
    hide GroupEnd, ExtCount, NoRepeats, Rest, NextIn, First;
    RestSplits(blocks, slots, k);
    ExtsSplit(exts, k);
    NotAfterIt(exts, k);
    var first := GroupEnd(k, slots);
    var data := blocks[first..first + Min(slots, |blocks| - first)];
    LaidOutFramed(e, slots, h, exts[k + 1..], Rest(blocks, slots, k + 1),
        e[exts[k] := List(exts[k], h, data, NextIn(exts, k, 0))]);
  }

  lemma NotAfterIt(exts: seq<Lba>, k: nat)
    requires NoRepeats(exts) && k < |exts|
    ensures exts[k] !in exts[k + 1..]
  {
    var rest := exts[k + 1..];
    assert forall i :: 0 <= i < |rest| ==> rest[i] == exts[k + 1 + i];
  }

  lemma NoExtYet(e: Disk, slots: nat, h: Lba, blocks: seq<Lba>, exts: seq<Lba>)
    requires slots > 0 && |exts| == ExtCount(|blocks|, slots)
    ensures LaidOut(e, slots, h, exts[|exts|..], Rest(blocks, slots, |exts|))
  {
    GroupEnds(|blocks|, slots, |exts|);
    hide GroupEnd, ExtCount;
    assert Rest(blocks, slots, |exts|) == [];
  }

  /** The extension blocks, last first, so that no pointer names a block not yet there. */
  method WriteExts(m: Mutator, h: Lba, blocks: seq<Lba>, exts: seq<Lba>, ghost j: Job, ghost s: Bytes,
          ghost own: set<Lba>, ghost from: nat, ghost last: nat, ghost n: nat)
    requires Going(m, j, s, own, from) && m.vol.f.payload > 0 && m.vol.f.slots > 0 && h == j.chain.header
              && blocks == j.blocks
    requires Stage(m.vol.src.blocks, m.vol.f, j, s, |j.blocks|, last, n)
    requires NoRepeats(exts) && |exts| == ExtCount(|j.blocks|, m.vol.f.slots) && forall x :: x in exts ==>
              x in own && x !in j.blocks
    modifies m.vol.src
    ensures Going(m, j, s, own, from) && m.Entries() == old(m.Entries())
    ensures Stage(m.vol.src.blocks, m.vol.f, j, s, |j.blocks|, last, n)
    ensures LaidOut(m.vol.src.blocks, m.vol.f.slots, j.chain.header, exts, j.blocks[Min(m.vol.f.slots, |j.blocks|)..])
  {
    hide Going, Stage, Tree, LaidOut, ExtCount, GroupEnd;
    NoExtYet(m.vol.src.blocks, m.vol.f.slots, j.chain.header, j.blocks, exts);
    var k := |exts|;
    while k > 0
      invariant 0 <= k <= |exts| && Going(m, j, s, own, from) && m.Entries() == old(m.Entries())
      invariant Stage(m.vol.src.blocks, m.vol.f, j, s, |j.blocks|, last, n)
      invariant LaidOut(m.vol.src.blocks, m.vol.f.slots, j.chain.header, exts[k..], Rest(j.blocks, m.vol.f.slots, k))
    {
      k := k - 1;
      assert exts[k] in exts;
      WriteExt(m, h, blocks, exts, k, j, s, own, from, last, n);
    }
    GroupEnds(|j.blocks|, m.vol.f.slots, 0);
    assert exts[0..] == exts && Rest(j.blocks, m.vol.f.slots, 0) == j.blocks[Min(m.vol.f.slots, |j.blocks|)..];
  }

  method WriteExt(m: Mutator, h: Lba, blocks: seq<Lba>, exts: seq<Lba>, k: nat, ghost j: Job, ghost s: Bytes,
          ghost own: set<Lba>, ghost from: nat, ghost last: nat, ghost n: nat)
    requires Going(m, j, s, own, from) && m.vol.f.payload > 0 && m.vol.f.slots > 0 && h == j.chain.header
              && blocks == j.blocks
    requires Stage(m.vol.src.blocks, m.vol.f, j, s, |j.blocks|, last, n)
    requires NoRepeats(exts) && |exts| == ExtCount(|j.blocks|, m.vol.f.slots) && k < |exts| && exts[k] in own
              && exts[k] !in j.blocks
    requires LaidOut(m.vol.src.blocks, m.vol.f.slots, j.chain.header, exts[k + 1..],
              Rest(j.blocks, m.vol.f.slots, k + 1))
    modifies m.vol.src
    ensures Going(m, j, s, own, from) && m.Entries() == old(m.Entries())
    ensures Stage(m.vol.src.blocks, m.vol.f, j, s, |j.blocks|, last, n)
    ensures LaidOut(m.vol.src.blocks, m.vol.f.slots, j.chain.header, exts[k..], Rest(j.blocks, m.vol.f.slots, k))
  {
    hide Going, Stage, Tree, LaidOut, ExtCount, GroupEnd;
    var e, x, slots := m.vol.src.blocks, exts[k], m.vol.f.slots;
    OwnApart(m, j, s, own, from, x, last, n);
    OneMoreExt(e, slots, j.chain.header, j.blocks, exts, k);
    GroupEnds(|blocks|, slots, k);
    var first := slots + k * slots;
    var count := Min(slots, |blocks| - first);
    var b := List(x, h, blocks[first..first + count], NextIn(exts, k, 0));
    OtherStep(e, m.vol.f, j, s, |j.blocks|, last, n, x, b);
    StageIsOld(e[x := b], m.vol.f, j, s, |j.blocks|, last, n);
    PutOwn(m, j, x, b, s, own, from);
  }

  /** A block in hand is none of the old file's. */
  lemma OwnApart(m: Mutator, j: Job, s: Bytes, own: set<Lba>, from: nat, x: Lba, last: nat, n: nat)
    requires Going(m, j, s, own, from) && m.vol.f.payload > 0 && x in own
    requires Stage(m.vol.src.blocks, m.vol.f, j, s, |j.blocks|, last, n)
    ensures 0 < x < |m.vol.src.blocks| && x !in BlocksOfChain(j.chain) && m.Mine(x) && !m.shape.Owns(x)
  {
    hide JobOk, Ledger, Mutator.Ready, Named, Mutation.Kept, Rooted, IsChain, Grown, AllMine, InPlace, FreeOnDisk,
      Holds, LaidOut;
    OwnFacts(m, j, s, own, from, x);
    m.MineFacts(x);
    m.InOrderNow();
    ChainIsOwned(m.vol.src.blocks, m.vol.f, m.shape, j.chain);
    forall i | 0 <= i < |j.chain.extensions|
      ensures j.chain.extensions[i] != x
    {
      assert m.shape.Owns(j.chain.extensions[i]);
    }
  }

  // ---- The commit ------------------------------------------------------------------------------------------------

  /** The new file's blocks are the old one's or the operation's own. */
  ghost predicate Ours(m: Mutator, gone: set<Lba>, mine: map<Lba, Edge>)
    reads m`live, m`shape, m`base, m`origin, m`busy, m.vol.src, m.alloc`words
  {
    forall y: Lba :: y in mine ==> y in gone || m.Mine(y)
  }

  /** One write, carrying the length, the table and the extension pointer: before it the
      file is the old one, after it the new one. */
  method Commit(m: Mutator, h: Lba, c: Block, ghost gone: set<Lba>, ghost mine: map<Lba, Edge>)
    requires m.Valid() && IsEntry(m.shape, h) && h < |m.vol.src.blocks| && Retabled(m.vol.src.blocks[h], c)
              && h in m.busy
    requires FileParts(m.shape, h, gone) && h !in gone && Takes(m.vol.src.blocks, m.shape, c, h, gone, mine)
              && Ours(m, gone, mine)
    modifies m`live, m`shape, m`rank, m`views, m.vol.src
    ensures m.Valid() && m.Entries() == old(m.Entries()) && m.rank == old(m.rank)
              && m.views == old(m.views) + {m.Entries()}
    ensures m.vol.src.blocks == old(m.vol.src.blocks)[h := c] && m.shape == Committed(old(m.shape), gone, mine)
    ensures m.vol.src.trail == old(m.vol.src.trail) + [m.vol.src.blocks]
  {
    hide Mutator.Ready, Orderly, Mutation.Kept, Rooted, Tree, FileParts, Takes, Ours, Retabled, Committed,
      Mutator.Mine, FreeOnDisk;
    ghost var d, s := m.vol.src.blocks, m.shape;
    CommitKeepsOrder(d, m.vol.f, m.g, s, m.rank, m.vol.root, h, c, gone, mine);
    CommitIsKept(m, h, c, gone, mine);
    JoinNew(m, h, c, gone, mine);
    m.PutTurn(h, c, Committed(s, gone, mine), m.rank);
    CommittedRoot(s, gone, mine);
  }

  lemma CommitIsKept(m: Mutator, h: Lba, c: Block, gone: set<Lba>, mine: map<Lba, Edge>)
    requires m.Steady() && Ours(m, gone, mine) && FileParts(m.shape, h, gone)
    ensures var t := Committed(m.shape, gone, mine);
            && Kept(t, m.alloc.reserved, m.alloc.reserved + m.alloc.Covered(), m.alloc.Free())
                && t.Members() <= m.live + mine.Keys
  {
    hide Mutator.Ready, Orderly, FreeOnDisk, Mutator.Unused, HangsOff;
    var t := Committed(m.shape, gone, mine);
    GoneIsOwned(m.shape, h, gone);
    forall x: Lba | t.Owns(x)
      ensures m.alloc.IsCovered(x) && x !in m.alloc.Free()
    {
      assert m.shape.Owns(x) || m.Mine(x);
    }
  }

  lemma GoneIsOwned(s: Shape, h: Lba, gone: set<Lba>)
    requires FileParts(s, h, gone)
    ensures forall y: Lba :: y in gone ==> s.Owns(y) && y in s.Members()
  {}

  ghost method JoinNew(m: Mutator, h: Lba, c: Block, gone: set<Lba>, mine: map<Lba, Edge>)
    requires m.Valid() && IsEntry(m.shape, h) && h < |m.vol.src.blocks| && Retabled(m.vol.src.blocks[h], c)
              && h in m.busy
    requires FileParts(m.shape, h, gone) && h !in gone && Takes(m.vol.src.blocks, m.shape, c, h, gone, mine)
              && Ours(m, gone, mine)
    modifies m`live
    ensures m.Ready() && m.live == old(m.live) + mine.Keys
    ensures h < |m.base| && !m.vol.src.blocks[h].Bitmap? && PointsInto(c, m.live)
  {
    hide Logged, Spares, Mutator.Held, Mutator.Told, Sound, Orderly, Mutation.Kept, Rooted, FileParts, Takes, Ours,
      FreeOnDisk, PointsInto, Tree, Retabled;
    m.SameLength();
    NewIsSound(m, h, gone, mine, c);
    NewPoints(m, h, c, gone, mine);
    m.live := m.live + mine.Keys;
  }

  lemma NewIsSound(m: Mutator, h: Lba, gone: set<Lba>, mine: map<Lba, Edge>, c: Block)
    requires m.Steady() && FileParts(m.shape, h, gone) && Takes(m.vol.src.blocks, m.shape, c, h, gone, mine)
              && Ours(m, gone, mine)
    ensures Sound(m.vol.src.blocks, m.g, m.alloc.Free(), m.live + mine.Keys, m.vol.root)
  {
    hide Mutator.Told, Logged, Spares, Mutator.Held, Orderly, Mutation.Kept, FreeOnDisk, At, Mutator.Unused;
    GoneIsOwned(m.shape, h, gone);
    var d := m.vol.src.blocks;
    forall x: Lba | x in mine.Keys
      ensures x < |d| && PointsInto(d[x], m.live + mine.Keys) && x !in m.alloc.Free() && !FreeOnDisk(d, m.g, x)
    {
      assert x in gone || m.Mine(x);
    }
    hide Takes, Ours, FileParts, PointsInto;
    JoinIsSound(d, m.g, m.alloc.Free(), m.live, m.vol.root, mine.Keys);
  }

  lemma NewPoints(m: Mutator, h: Lba, c: Block, gone: set<Lba>, mine: map<Lba, Edge>)
    requires m.Steady() && IsEntry(m.shape, h) && h < |m.vol.src.blocks| && Retabled(m.vol.src.blocks[h], c)
    requires Takes(m.vol.src.blocks, m.shape, c, h, gone, mine)
    ensures PointsInto(c, m.live + mine.Keys) && !m.vol.src.blocks[h].Bitmap?
  {
    hide Mutator.Told, Logged, Spares, Mutator.Held, Orderly, Mutation.Kept, FreeOnDisk;
    RetabledIsSmall(m.vol.src.blocks[h], c);
    hide At, Fits, Hanging, SameEntry, SameSlots;
    assert h in m.live && PointsInto(m.vol.src.blocks[h], m.live);
    forall l | At(c, l) != 0
      ensures At(c, l) in m.live + mine.Keys
    {
      if !l.Datum? && !l.Ext? { assert At(c, l) == At(m.vol.src.blocks[h], l); }
    }
  }

  // ---- From the plan to the commit ---------------------------------------------------------------------------------

  /** The header the commit writes. */
  function NewFileHeader(b: Block, slots: nat, blocks: seq<Lba>, exts: seq<Lba>, size: nat, clock: Option<Date>): Block
    requires b.Header?
  {
    var c := b.(table := blocks[..Min(slots, |blocks|)], ext := First(exts), size := size);
    if clock.Some? then c.(meta := c.meta.(date := clock.value)) else c
  }

  /** Everything the commit will point to is on the disk. */
  ghost predicate Complete(e: Disk, f: Format, p: Plan, s: Bytes)
    requires f.payload > 0
  {
    && Canonical(e, f, p.job.chain)
    && (forall k :: 0 <= k < |p.job.blocks| ==> InPlace(e, f, p.job, s, k))
    && LaidOut(e, f.slots, p.job.chain.header, p.exts, p.job.blocks[Min(f.slots, |p.job.blocks|)..])
  }

  /** The passes and the extension blocks. */
  method WriteBlocks(m: Mutator, p: Plan, ghost s: Bytes, ghost own: set<Lba>, ghost from: nat)
          returns (r: Result<(), MutateError>)
    requires Going(m, p.job, s, own, from) && m.vol.f.payload > 0 && Planned(m.vol.f, p.job.chain, s, p, own)
    requires Canonical(m.vol.src.blocks, m.vol.f, p.job.chain) && Holds(m.vol.src.blocks, m.vol.f, p.job.chain, s)
    modifies m.vol.src
    ensures r.Ok? && Going(m, p.job, s, own, from) && m.Entries() == old(m.Entries())
              && Complete(m.vol.src.blocks, m.vol.f, p, s)
  {
    hide Going, Stage, Tree, Canonical, Holds, JobOk, ExtCount, Complete, InPlace;
    StartJob(m, p, s, own, from);
    r := WriteFresh(m, p.job, s, own, from);
    match r {
      case Err(_) => return;
      case Ok(_) =>
    }
    ghost var last, n;
    r, last, n := WriteKept(m, p.job, s, own, from);
    match r {
      case Err(_) => return;
      case Ok(_) =>
    }
    if p.extDirty {
      WriteExts(m, p.job.chain.header, p.job.blocks, p.exts, p.job, s, own, from, last, n);
    } else {
      SameTail(m.vol.src.blocks, m.vol.f, p, s, last, n);
    }
    AllDone(m.vol.src.blocks, m.vol.f, p, s, last, n);
  }

  lemma StartJob(m: Mutator, p: Plan, s: Bytes, own: set<Lba>, from: nat)
    requires Going(m, p.job, s, own, from) && m.vol.f.payload > 0
    requires Canonical(m.vol.src.blocks, m.vol.f, p.job.chain) && Holds(m.vol.src.blocks, m.vol.f, p.job.chain, s)
    ensures Stage(m.vol.src.blocks, m.vol.f, p.job, s, 0, 0, 0)
  {
    hide Mutator.Valid, Ledger, AllMine, Canonical, Stage;
    StartStage(m.vol.src.blocks, m.vol.f, p.job, s);
  }

  lemma SameTail(e: Disk, f: Format, p: Plan, s: Bytes, last: nat, n: nat)
    requires f.payload > 0 && Stage(e, f, p.job, s, |p.job.blocks|, last, n) && !p.extDirty
    requires p.exts == p.job.chain.extensions
    requires p.job.blocks[Min(f.slots, |p.job.blocks|)..] == p.job.chain.blocks[Min(f.slots, |p.job.chain.blocks|)..]
    ensures LaidOut(e, f.slots, p.job.chain.header, p.exts, p.job.blocks[Min(f.slots, |p.job.blocks|)..])
  {
    hide LaidOut, Holds, Walks, CeilDiv, InPlace;
  }

  lemma AllDone(e: Disk, f: Format, p: Plan, s: Bytes, last: nat, n: nat)
    requires f.payload > 0 && Stage(e, f, p.job, s, |p.job.blocks|, last, n)
    requires forall k :: last <= k < |p.job.blocks| ==> Untouchable(p.job, k)
    requires LaidOut(e, f.slots, p.job.chain.header, p.exts, p.job.blocks[Min(f.slots, |p.job.blocks|)..])
    ensures Complete(e, f, p, s)
  {
    hide LaidOut, Canonical, Holds, InPlace;
    assert forall k: nat :: k < |p.job.blocks| ==> Done(p.job, |p.job.blocks|, last, k);
  }

  /** The edit takes effect. */
  method TakeEffect(m: Mutator, h: Lba, blocks: seq<Lba>, exts: seq<Lba>, size: nat, clock: Option<Date>,
          ghost p: Plan, ghost s: Bytes, ghost own: set<Lba>, ghost from: nat)
    requires h == p.job.chain.header && blocks == p.job.blocks && exts == p.exts && size == p.job.size
    requires Going(m, p.job, s, own, from) && m.vol.f.payload > 0 && Planned(m.vol.f, p.job.chain, s, p, own)
    requires Complete(m.vol.src.blocks, m.vol.f, p, s) && IsEntry(m.shape, p.job.chain.header)
    modifies m`live, m`shape, m`rank, m`views, m.vol.src
    ensures m.Valid() && m.Entries() == old(m.Entries()) && m.rank == old(m.rank)
              && m.views == old(m.views) + {m.Entries()}
    ensures Canonical(m.vol.src.blocks, m.vol.f, NewChain(p))
              && Holds(m.vol.src.blocks, m.vol.f, NewChain(p), After(p.job, s))
    ensures m.shape.Owns(p.job.chain.header) && IsEntry(m.shape, p.job.chain.header)
    ensures m.vol.src.trail == old(m.vol.src.trail) + [m.vol.src.blocks]
    ensures forall x: Lba :: x in Parts(p.job.chain) && x !in Parts(NewChain(p)) ==> !m.shape.Owns(x)
    ensures forall x: Lba :: old(m.shape).Owns(x) && x !in Parts(p.job.chain) ==> m.shape.Owns(x)
  {
    hide Going, Planned, Complete, Tree, Canonical, Holds, Takes, FileParts, Retabled, Committed, Hanging, Ours,
      FileEdges, Parts,
      Mutator.Valid, NewFileHeader, NewChain, Grown;
    ghost var d := m.vol.src.blocks;
    GrownNow(m, p, s, own, from);
    GoingChain(m, p, s, own, from);
    var c := NewFileHeader(m.vol.src.blocks[h], m.vol.f.slots, blocks, exts, size, clock);
    NewHeaderIsRetabled(d[h], m.vol.f.slots, blocks, exts, size, clock);
    ghost var mine := FileEdges(h, m.vol.f.slots, p.job.blocks, p.exts);
    NewFileHangs(m, p, s, own, from, c);
    Commit(m, h, c, Parts(p.job.chain), mine);
    NewFileReads(d, m.vol.f, p, s, own, c);
    CommittedOwns(d, old(m.shape), h, p, mine);
  }

  lemma NewHeaderIsRetabled(b: Block, slots: nat, blocks: seq<Lba>, exts: seq<Lba>, size: nat, clock: Option<Date>)
    requires IsFile(b)
    ensures var c := NewFileHeader(b, slots, blocks, exts, size, clock);
            Retabled(b, c) && c.Header? && IsFile(c) && c.table == blocks[..Min(slots, |blocks|)]
                && c.ext == First(exts) && c.size == size
  {}

  lemma GrownNow(m: Mutator, p: Plan, s: Bytes, own: set<Lba>, from: nat)
    requires Going(m, p.job, s, own, from)
    ensures Grown(m.vol.src.blocks, m.shape)
  {
    hide Mutator.Ready, JobOk, Ledger, AllMine, Named, Rooted, Mutation.Kept;
  }

  lemma GoingChain(m: Mutator, p: Plan, s: Bytes, own: set<Lba>, from: nat)
    requires Going(m, p.job, s, own, from) && m.vol.f.payload > 0 && Complete(m.vol.src.blocks, m.vol.f, p, s)
    ensures m.Valid() && p.job.chain.header in m.busy
    ensures p.job.chain.header < |m.vol.src.blocks| && IsFile(m.vol.src.blocks[p.job.chain.header])
    ensures FileParts(m.shape, p.job.chain.header, Parts(p.job.chain)) && p.job.chain.header !in Parts(p.job.chain)
    ensures forall y: Lba :: y in Parts(p.job.chain) ==> m.shape.Owns(y) && y > 0
  {
    hide Mutator.Ready, JobOk, Ledger, AllMine, Named, Rooted, Mutation.Kept, IsChain, Grown, LaidOut, InPlace,
      HangsOff;
    m.InOrderNow();
    var d, c := m.vol.src.blocks, p.job.chain;
    ChainIsOwned(d, m.vol.f, m.shape, c);
    ChainHeader(d, m.vol.f, c);
    HeaderIsNoPart(d, m.vol.f, m.shape, c, c.header);
    forall y: Lba | y in Parts(c)
      ensures m.shape.Owns(y) && y > 0 && y in m.shape.up && (m.shape.up[y].link.Datum? || m.shape.up[y].link.Ext?)
    {
      if y in c.extensions {
        var i :| 0 <= i < |c.extensions| && c.extensions[i] == y;
        assert m.shape.up[c.extensions[i]].link.Ext?;
      }
      OwnedInside(d, m.shape, y);
    }
  }

  /** The blocks the plan lists are content, the extension blocks lists, and all of them
      the old file's or new. */
  lemma NewBlocks(m: Mutator, p: Plan, s: Bytes, own: set<Lba>, from: nat)
    requires Going(m, p.job, s, own, from) && m.vol.f.payload > 0 && Planned(m.vol.f, p.job.chain, s, p, own)
    requires Complete(m.vol.src.blocks, m.vol.f, p, s)
    ensures AllContent(m.vol.src.blocks, p.job.blocks) && NoRepeats(p.job.blocks) && NoRepeats(p.exts)
    ensures LaidOut(m.vol.src.blocks, m.vol.f.slots, p.job.chain.header, p.exts,
              p.job.blocks[Min(m.vol.f.slots, |p.job.blocks|)..])
    ensures forall x :: x in p.job.blocks || x in p.exts ==> x in Parts(p.job.chain) || x in own
    ensures forall x: Lba :: x in own ==> m.Mine(x) && !m.shape.Owns(x) && x > 0
  {
    GoingChain(m, p, s, own, from);
    GoingFacts(m, p.job, s, own, from);
    forall x: Lba | x in own
      ensures m.Mine(x) && !m.shape.Owns(x) && x > 0
    {
      OwnFacts(m, p.job, s, own, from, x);
      m.MineFacts(x);
    }
    hide Going, Canonical, LaidOut, ExtCount, FileParts, Mutator.Mine;
    forall k | 0 <= k < |p.job.blocks|
      ensures p.job.blocks[k] in Parts(p.job.chain) || p.job.blocks[k] in own
      ensures 0 < p.job.blocks[k] < |m.vol.src.blocks| && IsContent(m.vol.src.blocks[p.job.blocks[k]])
    {
      if !Untouchable(p.job, k) { KeptComesFirst(m.vol.f, p.job, s, k); KeptIsOld(m.vol.f, p.job, s, k); }
      assert InPlace(m.vol.src.blocks, m.vol.f, p.job, s, k);
    }
  }

  lemma NewFileHangs(m: Mutator, p: Plan, s: Bytes, own: set<Lba>, from: nat, c: Block)
    requires Going(m, p.job, s, own, from) && m.vol.f.payload > 0 && Planned(m.vol.f, p.job.chain, s, p, own)
    requires Complete(m.vol.src.blocks, m.vol.f, p, s) && c.Header? && IsFile(c)
    requires c.table == p.job.blocks[..Min(m.vol.f.slots, |p.job.blocks|)] && c.ext == First(p.exts)
    ensures var mine := FileEdges(p.job.chain.header, m.vol.f.slots, p.job.blocks, p.exts);
            && Takes(m.vol.src.blocks, m.shape, c, p.job.chain.header, Parts(p.job.chain), mine)
                && Ours(m, Parts(p.job.chain), mine)
            && p.job.chain.header !in mine && mine.Keys == Parts(NewChain(p))
    ensures 0 !in p.job.blocks
  {
    var d, h, slots, blocks, exts := m.vol.src.blocks, p.job.chain.header, m.vol.f.slots, p.job.blocks, p.exts;
    var mine := FileEdges(h, slots, blocks, exts);
    hide Going, FileEdges, FileParts, Mutator.Mine, Hanging, At, Fits, Parts, LaidOut, Planned, Complete, AllContent,
      NoRepeats;
    GoingChain(m, p, s, own, from);
    NewBlocks(m, p, s, own, from);
    FileHangs(d, h, slots, h, blocks, exts);
    ExtsAreLists(d, slots, h, exts, blocks[Min(slots, |blocks|)..]);
    NewEdges(d, h, p, mine);
    NewPointers(c, h, slots, blocks, exts, mine);
    hide Takes, Ours;
    EdgesAreOurs(m, Parts(p.job.chain), mine, blocks, exts, own);
    TakesThem(d, m.shape, c, h, Parts(p.job.chain), mine);
  }

  lemma EdgesAreOurs(m: Mutator, gone: set<Lba>, mine: map<Lba, Edge>, blocks: seq<Lba>, exts: seq<Lba>, own: set<Lba>)
    requires forall x: Lba :: x in own ==> m.Mine(x) && !m.shape.Owns(x)
    requires forall x :: x in blocks || x in exts ==> x in gone || x in own
    requires forall y: Lba :: y in mine ==> y in blocks || y in exts
    ensures Ours(m, gone, mine) && forall y: Lba :: y in mine ==> y in gone || !m.shape.Owns(y)
  {
    hide Mutator.Mine;
  }

  lemma TakesThem(d: Disk, s: Shape, c: Block, h: Lba, gone: set<Lba>, mine: map<Lba, Edge>)
    requires Hanging(d, mine, mine.Keys) && h !in mine && forall y: Lba :: y in mine ==> y in gone || !s.Owns(y)
    requires forall l :: At(c, l) != 0 && (l.Datum? || l.Ext?) ==> At(c, l) in mine && mine[At(c, l)] == Edge(h, l)
    ensures Takes(d, s, c, h, gone, mine)
  {
    hide Hanging, At;
  }

  lemma NewPointers(c: Block, h: Lba, slots: nat, blocks: seq<Lba>, exts: seq<Lba>, mine: map<Lba, Edge>)
    requires IsFile(c) && c.table == blocks[..Min(slots, |blocks|)] && c.ext == First(exts)
    requires forall i :: 0 <= i < Min(slots, |blocks|) ==> blocks[i] in mine && mine[blocks[i]] == Edge(h, Datum(i))
    requires exts != [] ==> exts[0] in mine && mine[exts[0]] == Edge(h, Ext)
    ensures forall l :: At(c, l) != 0 && (l.Datum? || l.Ext?) ==> At(c, l) in mine && mine[At(c, l)] == Edge(h, l)
  {
    forall l | At(c, l) != 0 && (l.Datum? || l.Ext?)
      ensures At(c, l) in mine && mine[At(c, l)] == Edge(h, l)
    {
      if l.Datum? { assert c.table[l.i] == blocks[l.i]; }
    }
  }

  lemma NewEdges(d: Disk, h: Lba, p: Plan, mine: map<Lba, Edge>)
    requires Hanging(d, mine, SetOf(p.job.blocks) + SetOf(p.exts)) && h < |d| && IsFile(d[h])
    requires AllContent(d, p.job.blocks) && forall x :: x in p.exts ==> x < |d| && d[x].List?
    ensures mine.Keys == Parts(NewChain(p)) && h !in mine && Hanging(d, mine, mine.Keys) && 0 !in p.job.blocks
    ensures forall y: Lba :: y in mine ==> y in p.job.blocks || y in p.exts
  {
    hide At, Fits;
  }

  lemma {:induction false} ExtsAreLists(d: Disk, slots: nat, header: Lba, exts: seq<Lba>, data: seq<Lba>)
    requires LaidOut(d, slots, header, exts, data)
    ensures forall x :: x in exts ==> 0 < x < |d| && d[x].List?
    decreases |exts|
  {
    if data != [] {
      ExtsAreLists(d, slots, header, exts[1..], data[Min(slots, |data|)..]);
      assert exts == [exts[0]] + exts[1..];
    }
  }

  /** Once the header says so the file is the new one, tables in order. */
  lemma NewFileReads(d: Disk, f: Format, p: Plan, s: Bytes, own: set<Lba>, c: Block)
    requires f.payload > 0 && Complete(d, f, p, s) && p.job.chain.header < |d| && IsFile(d[p.job.chain.header])
    requires Planned(f, p.job.chain, s, p, own) && 0 !in p.job.blocks
    requires c.Header? && IsFile(c) && c.table == p.job.blocks[..Min(f.slots, |p.job.blocks|)]
              && c.ext == First(p.exts) && c.size == p.job.size
    ensures Canonical(d[p.job.chain.header := c], f, NewChain(p))
              && Holds(d[p.job.chain.header := c], f, NewChain(p), After(p.job, s))
  {
    hide LaidOut, Canonical, ExtCount, CeilDiv, InPlace, NoRepeats, Untouchable;
    var h, e := p.job.chain.header, d[p.job.chain.header := c];
    ExtsAreLists(d, f.slots, h, p.exts, p.job.blocks[Min(f.slots, |p.job.blocks|)..]);
    LaidOutFramed(d, f.slots, h, p.exts, p.job.blocks[Min(f.slots, |p.job.blocks|)..], e);
    HeaderFirst(h, p.exts);
    IsCanonical(e, f, h, p.job.size, p.job.blocks, p.exts);
    NewFileHolds(d, f, p, s, c);
  }

  lemma NewFileHolds(d: Disk, f: Format, p: Plan, s: Bytes, c: Block)
    requires p.job.chain.header < |d| && IsFile(d[p.job.chain.header])
    requires forall k :: 0 <= k < |p.job.blocks| ==> InPlace(d, f, p.job, s, k)
    ensures Holds(d[p.job.chain.header := c], f, NewChain(p), After(p.job, s))
  {
    hide Chunk, Edited;
    forall k | 0 <= k < |p.job.blocks|
      ensures Delivers(d[p.job.chain.header := c], f.ffs, p.job.chain.header, k, p.job.blocks[k],
                Chunk(After(p.job, s), f.payload, k))
    {
      assert InPlace(d, f, p.job, s, k);
    }
  }

  lemma HeaderFirst(h: Lba, exts: seq<Lba>)
    requires NoRepeats(exts) && h !in exts
    ensures NoRepeats([h] + exts)
  {
    var all := [h] + exts;
    assert forall i :: 0 < i < |all| ==> all[i] == exts[i - 1];
  }

  lemma CommittedOwns(d: Disk, s: Shape, h: Lba, p: Plan, mine: map<Lba, Edge>)
    requires Grown(d, s) && IsEntry(s, h) && FileParts(s, h, Parts(p.job.chain)) && h !in Parts(p.job.chain)
    requires h !in mine && mine.Keys == Parts(NewChain(p))
    ensures var t := Committed(s, Parts(p.job.chain), mine);
            && t.Owns(h) && IsEntry(t, h)
            && (forall x: Lba :: x in Parts(p.job.chain) && x !in Parts(NewChain(p)) ==> !t.Owns(x))
            && (forall x: Lba :: s.Owns(x) && x !in Parts(p.job.chain) ==> t.Owns(x))
  {
    hide Parts, HangsOff, Fits;
    var gone := Parts(p.job.chain);
    assert forall x: Lba :: x in gone ==> x in s.up by { GoneIsUp(s, h, gone); }
  }

  lemma GoneIsUp(s: Shape, h: Lba, gone: set<Lba>)
    requires FileParts(s, h, gone)
    ensures forall x: Lba :: x in gone ==> x in s.up
  {}

  // ---- After the commit -------------------------------------------------------------------------------

  /** The advisory records after the authoritative one, then the frees: a bit is cleared
      only once nothing on the disk names the block. */
  method Close(m: Mutator, dir: Lba, list: seq<Lba>) returns (r: Result<(), MutateError>)
    requires m.Valid() && IsFolder(m.vol.src.blocks, m.shape, dir) && NoRepeats(list) && forall x :: x in list ==>
              m.Spent(x)
    modifies m`live, m`shape, m.vol.src, m.alloc
    ensures m.Valid() && m.Entries() == old(m.Entries())
              && Carries(old(m.vol.src.blocks), old(m.shape), m.vol.src.blocks, m.shape)
    ensures r.Err? ==> m.vol.f.dircache
    ensures r.Ok? && m.vol.f.dircache ==> Mirrors(m.vol.src.blocks, m.vol.f, m.shape, dir)
    ensures !m.vol.f.dircache ==> m.alloc.Free() == old(m.alloc.Free()) + SetOf(list) && m.shape == old(m.shape)
  {
    hide Mutator.Ready, Orderly, Mutation.Kept, Rooted, Tree, Carries, Mirrors, Neutral, Grown, IsFolder, SetOf,
      Mutator.Spent, NoRepeats;
    ghost var d, s := m.vol.src.blocks, m.shape;
    m.FolderFacts(dir);
    r := m.RefreshDircache(dir);
    ghost var e := m.vol.src.blocks;
    m.RootFacts();
    Mutator.FolderStays(d, s, e, m.shape, dir);
    if r.Err? {
      return;
    }
    TouchDisk(m, dir);
    CarriesOn(d, s, e, m.shape, m.vol.src.blocks, m.shape);
    e := m.vol.src.blocks;
    var freed := m.FreeAll(list);
    FlushAndCount(m, dir);
    CarriesOn(d, s, e, m.shape, m.vol.src.blocks, m.shape);
  }

  /** Stamp the volume's date, if this session has a clock. */
  method TouchDisk(m: Mutator, dir: Lba)
    requires m.Valid() && IsFolder(m.vol.src.blocks, m.shape, dir)
    modifies m.vol.src
    ensures m.Valid() && m.Entries() == old(m.Entries())
              && Carries(old(m.vol.src.blocks), m.shape, m.vol.src.blocks, m.shape)
    ensures IsFolder(m.vol.src.blocks, m.shape, dir)
    ensures old(Mirrors(m.vol.src.blocks, m.vol.f, m.shape, dir)) ==> Mirrors(m.vol.src.blocks, m.vol.f, m.shape, dir)
  {
    hide Mutator.Ready, Orderly, Mutation.Kept, Rooted, Tree, Carries, Mirrors, Neutral, Grown, IsFolder, Stamped;
    ghost var d := m.vol.src.blocks;
    CarriesItself(d, m.shape);
    if m.clock.None? {
      return;
    }
    m.FolderFacts(dir);
    m.RootFacts();
    m.StampRoot(m.clock.value, false);
    m.StillFolder(d, dir);
    StampsAreNeutral(d[m.vol.root], m.clock.value, false);
    NeutralItself(d[dir]);
    if Mirrors(d, m.vol.f, m.shape, dir) { RootKeepsMirror(d, m.vol.f, m.shape, dir, m.vol.src.blocks); }
  }

  method FlushAndCount(m: Mutator, dir: Lba)
    requires m.Valid() && IsFolder(m.vol.src.blocks, m.shape, dir)
    modifies m.vol.src, m.alloc`dirty
    ensures m.Valid() && m.Entries() == old(m.Entries())
              && Carries(old(m.vol.src.blocks), m.shape, m.vol.src.blocks, m.shape)
    ensures old(Mirrors(m.vol.src.blocks, m.vol.f, m.shape, dir)) ==> Mirrors(m.vol.src.blocks, m.vol.f, m.shape, dir)
  {
    hide Mutator.Ready, Orderly, Mutation.Kept, Rooted, Tree, Carries, Mirrors, Neutral, Grown, IsFolder, FreeOnDisk;
    ghost var d := m.vol.src.blocks;
    m.RootFacts();
    FlushMirrors(m, dir);
    ghost var e := m.vol.src.blocks;
    m.StillFolder(d, dir);
    m.FolderFacts(dir);
    m.RootFacts();
    m.StampBlocksUsed();
    CarriesOn(d, m.shape, e, m.shape, m.vol.src.blocks, m.shape);
    m.RootFacts();
    if Mirrors(e, m.vol.f, m.shape, dir) { RootKeepsMirror(e, m.vol.f, m.shape, dir, m.vol.src.blocks); }
  }

  method FlushMirrors(m: Mutator, dir: Lba)
    requires m.Valid() && IsFolder(m.vol.src.blocks, m.shape, dir)
    modifies m.vol.src, m.alloc`dirty
    ensures m.Valid() && m.Entries() == old(m.Entries())
              && Carries(old(m.vol.src.blocks), m.shape, m.vol.src.blocks, m.shape)
    ensures old(Mirrors(m.vol.src.blocks, m.vol.f, m.shape, dir)) ==> Mirrors(m.vol.src.blocks, m.vol.f, m.shape, dir)
  {
    hide Mutator.Ready, Orderly, Mutation.Kept, Rooted, Tree, Carries, MirrorsIn, Neutral, Grown, IsFolder, FreeOnDisk;
    ghost var entries, chain;
    ghost var mirrored := Mirrors(m.vol.src.blocks, m.vol.f, m.shape, dir);
    if mirrored {
      entries, chain :| MirrorsIn(m.vol.src.blocks, m.vol.f, m.shape, dir, entries, chain);
    }
    ghost var d := m.vol.src.blocks;
    m.PagesNow();
    m.InOrderNow();
    m.FlushBitmap();
    if mirrored {
      FlushKeepsMirror(d, m.vol.f, m.shape, dir, entries, chain, m.vol.src.blocks, m.g);
      m.Mirrored(dir, entries, chain);
    }
  }
}
