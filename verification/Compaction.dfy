/**
 Defragmenting a file: everything but its header moves, in the order a reader fetches it,
 into as few runs as the volume has to offer. The file can be read throughout.
 */
module Compaction {
  import opened Words
  import opened Disk
  import opened Allocation
  import opened Names
  import opened Forest
  import opened Directories
  import opened Dircache
  import opened Protocol
  import opened Reader
  import opened Steps
  import opened Mutation
  import opened Creation
  import opened Removal
  import opened Chains
  import opened Contents
  import opened Passes
  import opened Drafting
  import opened Survival
  import opened Editing
  import opened Edits

  // ---- Runs ----------------------------------------------------------------------------------------

  /** How many runs of blocks, each right after the one before, `s` takes. */
  function RunsIn(s: seq<Lba>): nat {
    if |s| <= 1 then |s|
    else RunsIn(s[..|s| - 1]) + if s[|s| - 1] == s[|s| - 2] + 1 then 0 else 1
  }

  lemma {:induction false} OneRunIsOne(s: seq<Lba>)
    ensures RunsIn(s) <= 1 <==> InOneRun(s)
    ensures s != [] ==> RunsIn(s) >= 1
    decreases |s|
  {
    if |s| > 1 {
      var rest := s[..|s| - 1];
      OneRunIsOne(rest);
      if InOneRun(s) {
        assert forall i :: 0 <= i < |rest| ==> rest[i] == s[i];
      }
      if InOneRun(rest) { assert rest[|s| - 2] == rest[0] + (|s| - 2); }
    }
  }

  method CountRuns(blocks: seq<Lba>) returns (runs: nat)
    ensures runs == RunsIn(blocks)
  {
    if blocks == [] {
      return 0;
    }
    runs := 1;
    var i := 1;
    while i < |blocks|
      invariant 1 <= i <= |blocks| && runs == RunsIn(blocks[..i])
    {
      var more := blocks[..i + 1];
      assert more[..i] == blocks[..i] && more[i] == blocks[i] && more[i - 1] == blocks[i - 1];
      if blocks[i] != blocks[i - 1] + 1 {
        runs := runs + 1;
      }
      i := i + 1;
    }
    assert blocks[..i] == blocks;
  }

  // ---- The order a reader fetches a file in -----------------------------------------------------------

  /** The first `i` blocks and the first `used` extension blocks, as a reader comes to them. */
  ghost predicate Fetched(out: seq<bool>, order: seq<Lba>, blocks: seq<Lba>, exts: seq<Lba>, slots: nat, i: nat,
          used: nat) {
    && i <= |blocks| && used <= |exts| && |out| == |order| == i + used && ExtsIn(out) == used
    && InFetchOrder(out, slots) && Dealt(out, order, blocks[..i], exts[..used])
  }

  lemma NoneFetched(blocks: seq<Lba>, exts: seq<Lba>, slots: nat)
    ensures Fetched([], [], blocks, exts, slots, 0, 0)
  {}

  lemma FetchedData(out: seq<bool>, order: seq<Lba>, blocks: seq<Lba>, exts: seq<Lba>, slots: nat, i: nat, used: nat)
    requires Fetched(out, order, blocks, exts, slots, i, used) && i < |blocks|
    ensures Fetched(out + [false], order + [blocks[i]], blocks, exts, slots, i + 1, used)
  {
    hide Dealt, InFetchOrder;
    OneMorePosition(out, slots, false);
    DealtMore(out, order, blocks[..i], exts[..used], false, blocks[i]);
    assert blocks[..i] + [blocks[i]] == blocks[..i + 1];
  }

  lemma FetchedExt(out: seq<bool>, order: seq<Lba>, blocks: seq<Lba>, exts: seq<Lba>, slots: nat, i: nat, used: nat)
    requires Fetched(out, order, blocks, exts, slots, i, used) && used < |exts| && i == GroupEnd(used, slots)
    ensures Fetched(out + [true], order + [exts[used]], blocks, exts, slots, i, used + 1)
  {
    hide Dealt, InFetchOrder, GroupEnd;
    OneMorePosition(out, slots, true);
    DealtMore(out, order, blocks[..i], exts[..used], true, exts[used]);
    assert exts[..used] + [exts[used]] == exts[..used + 1];
  }

  lemma AllFetched(out: seq<bool>, order: seq<Lba>, blocks: seq<Lba>, exts: seq<Lba>, slots: nat, full: nat, r: nat)
    requires slots > 0 && |exts| == ExtCount(|blocks|, slots) && |blocks| == full * slots + r && r < slots
    requires Fetched(out, order, blocks, exts, slots, |blocks|, Min(full, |exts|))
    ensures |out| == |order| == |blocks| + |exts| && ExtsIn(out) == |exts|
    ensures InFetchOrder(out, slots) && Dealt(out, order, blocks, exts)
  {
    hide Dealt, InFetchOrder, ExtCount;
    EnoughGroups(|blocks|, full, slots, r);
    assert blocks[..|blocks|] == blocks && exts[..|exts|] == exts;
  }

  /** The file's blocks in the order a reader comes to them; `true` where that is an
      extension block. */
  method FetchOrder(blocks: seq<Lba>, exts: seq<Lba>, slots: nat) returns (out: seq<bool>, order: seq<Lba>)
    requires slots > 0 && |exts| == ExtCount(|blocks|, slots)
    ensures |out| == |order| == |blocks| + |exts| && ExtsIn(out) == |exts|
    ensures InFetchOrder(out, slots) && Dealt(out, order, blocks, exts)
  {
    hide Fetched, InFetchOrder, Dealt, ExtCount, GroupEnd;
    out, order := [], [];
    NoneFetched(blocks, exts, slots);
    var i := 0;
    ghost var full: nat, r: nat := 0, 0;
    while i < |blocks|
      invariant 0 <= i <= |blocks| && i == full * slots + r && r < slots
      invariant Fetched(out, order, blocks, exts, slots, i, Min(full, |exts|))
    {
      FetchedData(out, order, blocks, exts, slots, i, Min(full, |exts|));
      out, order := out + [false], order + [blocks[i]];
      NextGroup(i, full, slots, r);
      if (i + 1) % slots == 0 {
        var k := (i + 1) / slots - 1;
        if k < |exts| {
          FetchedExt(out, order, blocks, exts, slots, i + 1, full);
          out, order := out + [true], order + [exts[k]];
        }
        full, r := full + 1, 0;
      } else {
        r := r + 1;
      }
      i := i + 1;
    }
    AllFetched(out, order, blocks, exts, slots, full, r);
  }

  /** The next extension block after position `p`, and no place for it but the one it has. */
  lemma {:induction false} NextExt(out: seq<bool>, slots: nat, p: nat, n: nat)
    requires InFetchOrder(out, slots) && p < n <= |out| && !out[p]
              && p - ExtsIn(out[..p]) == GroupEnd(ExtsIn(out[..p]), slots)
    ensures ExtsIn(out[..n]) == ExtsIn(out[..p])
    decreases n
  {
    assert out[..n][..n - 1] == out[..n - 1] && out[..n][n - 1] == out[n - 1];
    if n > p + 1 {
      NextExt(out, slots, p, n - 1);
      assert AtItsPlace(out, n - 1, slots);
    }
  }

  /** Which positions are extension blocks depends on how many there are of both. */
  lemma {:induction false} OneFetchOrder(a: seq<bool>, b: seq<bool>, slots: nat, n: nat)
    requires InFetchOrder(a, slots) && InFetchOrder(b, slots) && |a| == |b| && ExtsIn(a) == ExtsIn(b) && n <= |a|
    ensures a[..n] == b[..n]
    decreases n
  {
    if n > 0 {
      OneFetchOrder(a, b, slots, n - 1);
      assert a[..n] == a[..n - 1] + [a[n - 1]] && b[..n] == b[..n - 1] + [b[n - 1]];
      assert a[..|a|] == a && b[..|b|] == b;
      if a[n - 1] && !b[n - 1] {
        assert AtItsPlace(a, n - 1, slots);
        NextExt(b, slots, n - 1, |b|);
        MoreExts(a, n - 1, |a|);
      } else if b[n - 1] && !a[n - 1] {
        assert AtItsPlace(b, n - 1, slots);
        NextExt(a, slots, n - 1, |a|);
        MoreExts(b, n - 1, |b|);
      }
    }
  }

  lemma {:induction false} MoreExts(out: seq<bool>, p: nat, n: nat)
    requires p < n <= |out| && out[p]
    ensures ExtsIn(out[..n]) > ExtsIn(out[..p])
    decreases n
  {
    assert out[..n][..n - 1] == out[..n - 1] && out[..n][n - 1] == out[n - 1];
    if n > p + 1 { MoreExts(out, p, n - 1); }
  }

  /** A file's blocks have one fetch order. */
  lemma FetchIsDecided(a: seq<bool>, x: seq<Lba>, b: seq<bool>, y: seq<Lba>, blocks: seq<Lba>, exts: seq<Lba>,
          slots: nat)
    requires InFetchOrder(a, slots) && Dealt(a, x, blocks, exts) && |a| == |x|
    requires InFetchOrder(b, slots) && Dealt(b, y, blocks, exts) && |b| == |y|
    ensures a == b && x == y
  {
    OneFetchOrder(a, b, slots, |a|);
    assert a[..|a|] == a && b[..|b|] == b;
    hide ExtsIn, InFetchOrder;
    forall p | 0 <= p < |x|
      ensures x[p] == y[p]
    {
      assert DealtAt(a, x, blocks, exts, p) && DealtAt(b, y, blocks, exts, p);
    }
  }

  /** A file whose blocks, as a reader fetches them, are in one run already. */
  ghost predicate Contiguous(d: Disk, f: Format, h: Lba)
    requires f.payload > 0
  {
    exists c: FileChain, out, order :: IsChain(d, f, c) && c.header == h && Fetches(f, c, out, order)
        && RunsIn(order) <= 1
  }

  /** `order` is the blocks of file `c` as a reader comes to them. */
  ghost predicate Fetches(f: Format, c: FileChain, out: seq<bool>, order: seq<Lba>) {
    InFetchOrder(out, f.slots) && Dealt(out, order, c.blocks, c.extensions) && |out| == |order|
  }

  lemma ContiguousIs(d: Disk, f: Format, c: FileChain, out: seq<bool>, order: seq<Lba>)
    requires f.payload > 0 && IsChain(d, f, c) && Fetches(f, c, out, order)
    ensures Contiguous(d, f, c.header) <==> RunsIn(order) <= 1
  {
    hide IsChain, InFetchOrder, Dealt, RunsIn;
    if Contiguous(d, f, c.header) {
      var c2: FileChain, out2, order2 :| IsChain(d, f, c2) && c2.header == c.header && Fetches(f, c2, out2, order2)
          && RunsIn(order2) <= 1;
      ChainIsUnique(d, f, c, c2);
      FetchIsDecided(out, order, out2, order2, c.blocks, c.extensions, f.slots);
    }
  }

  lemma DealtMore(out: seq<bool>, order: seq<Lba>, blocks: seq<Lba>, exts: seq<Lba>, b: bool, x: Lba)
    requires Dealt(out, order, blocks, exts) && |out| == |order|
    ensures Dealt(out + [b], order + [x], if b then blocks else blocks + [x], if b then exts + [x] else exts)
  {
    var more, all := out + [b], order + [x];
    assert more[..|out|] == out && more[..|out| + 1] == more;
    assert Dealt(out, all, blocks, exts) by {
      hide ExtsIn;
      forall p | 0 <= p < |out|
        ensures ExtsIn(out[..p]) <= p && DealtAt(out, all, blocks, exts, p)
      {
        assert DealtAt(out, order, blocks, exts, p);
      }
    }
    DealtOn(more, all, blocks, exts, |out|);
  }

  /** Whether the next block starts a new group. */
  lemma NextGroup(i: nat, full: nat, slots: nat, r: nat)
    requires slots > 0 && i == full * slots + r && r < slots
    ensures (i + 1) % slots == 0 <==> r + 1 == slots
    ensures r + 1 == slots ==> (i + 1) / slots == full + 1 && i + 1 == (full + 1) * slots == GroupEnd(full, slots)
  {
    MulMonotone(full, full + 1, slots);
    if r + 1 == slots { DivIs(i + 1, slots, full + 1, 0); } else { DivIs(i + 1, slots, full, r + 1); }
  }

  // ---- The copies --------------------------------------------------------------------------------------

  /** A data block as its copy says it: an OFS one names its new neighbour, an FFS one is
      taken over byte for byte. */
  function Copied(b: Block, next: Lba): Block {
    if b.Data? then Data(b.owner, b.number, next, b.payload) else b
  }

  lemma CopyDelivers(e: Disk, ffs: bool, h: Lba, i: nat, was: Lba, now: Lba, next: Lba, chunk: Bytes)
    requires Delivers(e, ffs, h, i, was, chunk) && now < |e|
    ensures Delivers(e[now := Copied(e[was], next)], ffs, h, i, now, chunk)
  {}

  /** What a move is as an edit: every byte written again, nothing kept where it is. */
  ghost predicate Moves(j: Job, s: Bytes) {
    j.offset == 0 && j.data == s && j.size == |s| && j.eff == 0 && j.kept == 0 && j.cow.None?
        && |j.blocks| == |j.chain.blocks|
  }

  lemma MovesNothingElse(j: Job, s: Bytes)
    requires Moves(j, s)
    ensures After(j, s) == s && forall k: nat :: Untouchable(j, k)
  {}

  /** The data blocks, in order, into blocks nothing points to. */
  method CopyBlocks(m: Mutator, was: seq<Lba>, blocks: seq<Lba>, ghost j: Job, ghost s: Bytes, ghost own: set<Lba>,
          ghost from: nat)
    requires Going(m, j, s, own, from) && m.vol.f.payload > 0 && Stage(m.vol.src.blocks, m.vol.f, j, s, 0, 0, 0)
    requires Moves(j, s) && was == j.chain.blocks && blocks == j.blocks
    modifies m.vol.src
    ensures Going(m, j, s, own, from) && m.Entries() == old(m.Entries())
    ensures Stage(m.vol.src.blocks, m.vol.f, j, s, |blocks|, 0, 0)
  {
    hide Going, Stage, Tree;
    var i := 0;
    while i < |blocks|
      invariant 0 <= i <= |blocks| && Going(m, j, s, own, from) && m.Entries() == old(m.Entries())
      invariant Stage(m.vol.src.blocks, m.vol.f, j, s, i, 0, 0)
    {
      CopyBlock(m, was, blocks, i, j, s, own, from);
      i := i + 1;
    }
  }

  method CopyBlock(m: Mutator, was: seq<Lba>, blocks: seq<Lba>, i: nat, ghost j: Job, ghost s: Bytes,
          ghost own: set<Lba>, ghost from: nat)
    requires Going(m, j, s, own, from) && m.vol.f.payload > 0 && i < |blocks|
              && Stage(m.vol.src.blocks, m.vol.f, j, s, i, 0, 0)
    requires Moves(j, s) && was == j.chain.blocks && blocks == j.blocks
    modifies m.vol.src
    ensures Going(m, j, s, own, from) && m.Entries() == old(m.Entries())
    ensures Stage(m.vol.src.blocks, m.vol.f, j, s, i + 1, 0, 0)
  {
    hide Stage, Tree, Mutator.Valid, AllMine, Ledger, Holds, Canonical, JobOk, Chunk, Copied;
    MovesNothingElse(j, s);
    StageReads(m.vol.src.blocks, m.vol.f, j, s, i, 0, 0);
    GoingFacts(m, j, s, own, from);
    OwnFacts(m, j, s, own, from, blocks[i]);
    Untorn(m.vol.src.blocks, m.vol.f, j, s);
    OldDelivers(m.vol.src.blocks, m.vol.f, j.chain, s, i);
    var b := Copied(m.vol.src.blocks[was[i]], NextIn(blocks, i, 0));
    CopyDelivers(m.vol.src.blocks, m.vol.f.ffs, j.chain.header, i, was[i], blocks[i], NextIn(blocks, i, 0),
        Chunk(s, m.vol.f.payload, i));
    FreshStep(m.vol.src.blocks, m.vol.f, j, s, i, b);
    StageIsOld(m.vol.src.blocks[blocks[i] := b], m.vol.f, j, s, i + 1, 0, 0);
    PutOwn(m, j, blocks[i], b, s, own, from);
  }

  lemma OldDelivers(e: Disk, f: Format, c: FileChain, s: Bytes, i: nat)
    requires Holds(e, f, c, s) && i < |c.blocks|
    ensures Delivers(e, f.ffs, c.header, i, c.blocks[i], Chunk(s, f.payload, i)) && c.blocks[i] < |e|
  {}

  // ---- The move ------------------------------------------------------------------------------------------

  /** The plan of a move. */
  function Relocation(c: FileChain, s: Bytes, blocks: seq<Lba>, exts: seq<Lba>): Plan {
    Plan(Job(c, 0, s, |s|, 0, 0, None, blocks), exts, true)
  }

  /** A move is planned like a rewrite of the whole file. */
  lemma MovePlanned(d: Disk, f: Format, c: FileChain, s: Bytes, blocks: seq<Lba>, exts: seq<Lba>, free: set<Lba>)
    requires f.payload > 0 && f.slots > 0 && Canonical(d, f, c) && Holds(d, f, c, s) && NoRepeats(c.blocks)
    requires |blocks| == |c.blocks| && |exts| == ExtCount(|c.blocks|, f.slots) && NoRepeats(blocks + exts)
    requires SetOf(blocks + exts) <= free && forall x :: x in free ==> x !in BlocksOfChain(c)
    ensures var p := Relocation(c, s, blocks, exts);
            Planned(f, c, s, p, SetOf(blocks + exts)) && MovesTo(p, c, s, blocks, exts)
  {
    ChainCounts(d, f, c);
    var ch := Choice(true, 0, 0, None, true);
    hide Canonical, CeilDiv, NoRepeats, ExtCount, BlocksOfChain, Planned, Furnished;
    WholeIsChosen(f, c, s);
    assert (blocks + []) + exts == blocks + exts;
    FurnishedNow(f, c, ch, |c.blocks|, blocks, [], exts, SetOf(blocks + exts), free);
    PlanFits(d, f, true, c, s, 0, s, |s|, ch, blocks, [], exts, blocks, SetOf(blocks + exts));
  }

  lemma WholeIsChosen(f: Format, c: FileChain, s: Bytes)
    requires f.payload > 0 && |s| == c.size
    ensures Chosen(f, true, c.size, 0, |s|, |s|) == Choice(true, 0, 0, None, true)
  {
    hide CeilDiv;
  }

  /** Plan `p` moves file `c` to `blocks` and `exts`. */
  ghost predicate MovesTo(p: Plan, c: FileChain, s: Bytes, blocks: seq<Lba>, exts: seq<Lba>) {
    p.job.chain == c && p.job.blocks == blocks && p.exts == exts && p.extDirty && Moves(p.job, s)
  }

  /** The copies, and the extension blocks last first. */
  method CopyAll(m: Mutator, c: FileChain, blocks: seq<Lba>, exts: seq<Lba>, ghost p: Plan, ghost s: Bytes,
          ghost own: set<Lba>, ghost from: nat)
    requires Going(m, p.job, s, own, from) && m.vol.f.payload > 0 && Planned(m.vol.f, c, s, p, own)
              && MovesTo(p, c, s, blocks, exts)
    requires Canonical(m.vol.src.blocks, m.vol.f, c) && Holds(m.vol.src.blocks, m.vol.f, c, s)
    modifies m.vol.src
    ensures Going(m, p.job, s, own, from) && m.Entries() == old(m.Entries())
              && Complete(m.vol.src.blocks, m.vol.f, p, s)
  {
    hide Going, Canonical, Holds, Planned, Complete, Tree, Stage, NoRepeats, ExtCount, LaidOut, Untouchable, Moves;
    PlanCounts(m.vol.f, c, s, p, own);
    MovesNothingElse(p.job, s);
    StartJob(m, p, s, own, from);
    CopyBlocks(m, c.blocks, blocks, p.job, s, own, from);
    WriteExts(m, c.header, blocks, exts, p.job, s, own, from, 0, 0);
    AllDone(m.vol.src.blocks, m.vol.f, p, s, 0, 0);
  }

  /** The copies, then the header, in one write. */
  method Transplant(m: Mutator, c: FileChain, blocks: seq<Lba>, exts: seq<Lba>, ghost p: Plan, ghost s: Bytes,
          ghost own: set<Lba>, ghost from: nat, ghost d: Disk, ghost t: Shape)
    requires m.vol.f.payload > 0 && IsEntry(m.shape, c.header) && MovesTo(p, c, s, blocks, exts)
    requires Going(m, p.job, s, own, from) && Planned(m.vol.f, c, s, p, own)
    requires Canonical(m.vol.src.blocks, m.vol.f, c) && Holds(m.vol.src.blocks, m.vol.f, c, s)
    requires m.BeganWith(m.vol.src.blocks, m.shape, m.vol.src.trail, BlocksOfChain(c))
    requires Harmless(m, d, t, c.header, s, s, 0, from) && m.views == {m.Entries()} && m.Entries() == Tree(d, t)
    modifies m`live, m`shape, m`rank, m`base, m`origin, m`past, m`busy, m`views, m.vol.src
    ensures m.Valid() && m.Entries() == old(m.Entries()) && IsEntry(m.shape, c.header)
    ensures Harmless(m, d, t, c.header, s, s, 0, from)
    ensures Canonical(m.vol.src.blocks, m.vol.f, NewChain(p)) && Holds(m.vol.src.blocks, m.vol.f, NewChain(p), s)
    ensures m.BeganWith(m.vol.src.blocks, m.shape, m.vol.src.trail, {}) && m.views == {m.Entries()}
    ensures NoRepeats(Freed(p)) && (forall x :: x in Freed(p) ==> m.Spent(x)) && SetOf(Freed(p)) == Parts(c)
    ensures own == Parts(NewChain(p)) && Parts(c) !! own && forall x :: x in Parts(c) ==> x !in m.alloc.Free()
    ensures old(m.vol.src.trail) <= m.vol.src.trail
  {
    hide Mutator.Valid, Canonical, IsChain, Holds, Going, Planned, Complete, CrashesLeave, OthersRead, StillThere,
      Edited, Tree, Began, JobOk,
      OldHeld, Freed, Parts, NewChain, Mutator.Spent, Mutator.BeganWith, Ledger, Shown, NoRepeats, BlocksOfChain, SetOf;
    ghost var e, writes := m.vol.src.blocks, m.vol.src.trail;
    MovesNothingElse(p.job, s);
    AtRest(m, p, s, own, from);
    OldIsHeld(m, c);
    PlanCounts(m.vol.f, c, s, p, own);
    PartsOfMove(m.vol.f, c, s, p, own);
    CopyAll(m, c, blocks, exts, p, s, own, from);
    Switch(m, c.header, blocks, exts, c.size, None, p, s, own, from, d, t, e, writes);
  }

  lemma PlanCounts(f: Format, c: FileChain, s: Bytes, p: Plan, own: set<Lba>)
    requires Planned(f, c, s, p, own) && p.extDirty
    ensures |p.exts| == ExtCount(|p.job.blocks|, f.slots) && NoRepeats(p.exts) && f.slots > 0 && |s| == c.size
    ensures forall x :: x in p.exts ==> x in own && x !in p.job.blocks
    ensures forall x :: x in own ==> x !in BlocksOfChain(c)
  {
    hide ExtCount, BlocksOfChain, CeilDiv, LenAt, Untouchable;
  }

  /** The new file shares nothing with the old one but its header. */
  lemma PartsOfMove(f: Format, c: FileChain, s: Bytes, p: Plan, own: set<Lba>)
    requires Planned(f, c, s, p, own) && p.extDirty && Moves(p.job, s)
    ensures Parts(NewChain(p)) == own && own == SetOf(p.job.blocks + p.exts) && Parts(c) !! own
  {
    hide ExtCount, NoRepeats;
    MovesNothingElse(p.job, s);
    forall x: Lba | x in SetOf(p.job.blocks)
      ensures x in own
    {
      var k :| 0 <= k < |p.job.blocks| && p.job.blocks[k] == x;
      assert Untouchable(p.job, k);
    }
    forall x: Lba
      ensures x in SetOf(p.job.blocks + p.exts) <==> x in p.job.blocks || x in p.exts
    {
      assert x in p.job.blocks + p.exts <==> x in p.job.blocks || x in p.exts;
    }
  }

  // ---- The whole of it -----------------------------------------------------------------------------------

  /** Drawing the new blocks left everything as it was. */
  lemma DrawnHarmless(m: Mutator, d: Disk, rank: map<Lba, int>, writes: seq<Disk>, c: FileChain, s: Bytes)
    requires m.Valid() && Began(m, d, m.shape, rank, writes, {}) && m.vol.f.payload > 0
    requires m.views == {m.Entries()} && m.Entries() == Tree(d, m.shape)
    requires Canonical(d, m.vol.f, c) && Holds(d, m.vol.f, c, s) && m.shape.Owns(c.header)
    ensures Harmless(m, d, m.shape, c.header, s, s, 0, |writes|)
    ensures Canonical(m.vol.src.blocks, m.vol.f, c) && Holds(m.vol.src.blocks, m.vol.f, c, s)
              && Stored(m.vol.src.blocks, m.vol.f, c.header, s)
    ensures writes <= m.vol.src.trail && forall i :: |writes| <= i < |m.vol.src.trail| ==>
              Canonical(m.vol.src.trail[i], m.vol.f, c) && Holds(m.vol.src.trail[i], m.vol.f, c, s)
  {
    hide Mutator.Valid, Canonical, Holds, Stored, CrashesLeave, OthersRead, StillThere, Tree, Began, Shown,
      Mutator.BeganWith;
    DraftingSpares(m, d, rank, writes, c, s);
    DraftLeaves(m, |writes|, c, s, s, 0);
    BeganPart(m, d, m.shape, rank, writes, {});
    NothingShown(writes, m.vol.f, m.vol.root, {Tree(d, m.shape)});
    TreeStands(m, d, m.shape, writes, {}, |writes|, Tree(d, m.shape));
  }

  /** Give back the blocks the file was in. */
  method LeaveBehind(m: Mutator, list: seq<Lba>)
    requires m.Valid() && NoRepeats(list) && forall x :: x in list ==> m.Spent(x)
    modifies m`live, m.vol.src, m.alloc
    ensures m.Valid() && m.Entries() == old(m.Entries()) && m.alloc.Free() == old(m.alloc.Free()) + SetOf(list)
    ensures Carries(old(m.vol.src.blocks), m.shape, m.vol.src.blocks, m.shape)
  {
    hide Mutator.Ready, Orderly, Mutation.Kept, Rooted, Tree, Carries, Mutator.Spent, NoRepeats, Neutral, FreeOnDisk;
    ghost var d := m.vol.src.blocks;
    var freed := m.FreeAll(list);
    m.FlushBitmap();
    ghost var e := m.vol.src.blocks;
    m.StampBlocksUsed();
    CarriesOn(d, m.shape, e, m.shape, m.vol.src.blocks, m.shape);
  }

  /** File `c` is now `c2`: the same header, and of the other blocks none the same. Those of
      `c2` were free, those of `c` are. In the order a reader fetches them the blocks of
      `c2` take `runs` runs: one, if there was room for one. */
  ghost predicate Relocated(e: Disk, f: Format, c: FileChain, c2: FileChain, was: set<Lba>, now: set<Lba>, runs: nat)
    requires f.payload > 0
  {
    && Canonical(e, f, c2) && c2.header == c.header && Parts(c2) <= was && now == was - Parts(c2) + Parts(c)
    && (HasStretch(was, |c2.blocks| + |c2.extensions|) ==> runs <= 1)
    && exists out, order :: InFetchOrder(out, f.slots) && Dealt(out, order, c2.blocks, c2.extensions)
        && |out| == |order| && runs == RunsIn(order)
  }

  method FinishMove(m: Mutator, c: FileChain, blocks: seq<Lba>, exts: seq<Lba>, ghost p: Plan, ghost s: Bytes,
          ghost own: set<Lba>, ghost from: nat, ghost d: Disk, ghost t: Shape, ghost free: set<Lba>)
    requires m.vol.f.payload > 0 && m.vol.f.slots > 0 && IsEntry(m.shape, c.header) && MovesTo(p, c, s, blocks, exts)
    requires Going(m, p.job, s, own, from) && Planned(m.vol.f, c, s, p, own)
    requires Canonical(m.vol.src.blocks, m.vol.f, c) && Holds(m.vol.src.blocks, m.vol.f, c, s)
    requires m.BeganWith(m.vol.src.blocks, m.shape, m.vol.src.trail, BlocksOfChain(c))
    requires Harmless(m, d, t, c.header, s, s, 0, from) && m.views == {m.Entries()} && m.Entries() == Tree(d, t)
    requires own <= free && m.alloc.Free() == free - own
    modifies m, m.vol.src, m.alloc
    ensures m.Valid() && m.Entries() == old(m.Entries())
    ensures Harmless(m, d, t, c.header, s, s, 0, from) && Stored(m.vol.src.blocks, m.vol.f, c.header, s)
    ensures Canonical(m.vol.src.blocks, m.vol.f, FileChain(c.header, |s|, blocks, exts))
    ensures Parts(FileChain(c.header, |s|, blocks, exts)) == own && m.alloc.Free() == free - own + Parts(c)
    ensures |m.alloc.Free()| == |free|
    ensures old(m.vol.src.trail) <= m.vol.src.trail
  {
    hide Mutator.Ready, Mutator.Steady, Rooted, Canonical, Holds, Stored, Planned, Going, CrashesLeave, OthersRead,
      StillThere, Edited, Tree,
      Began, ExtCount, CeilDiv,
      Carries, Parts, Freed, NewChain, Mutator.Spent, NoRepeats, Footprint, Shown, Moves, Mutator.BeganWith;
    AtRest(m, p, s, own, from);
    CountOf(m, c, s);
    MoveIs(p, c, s, blocks, exts);
    Transplant(m, c, blocks, exts, p, s, own, from, d, t);
    ghost var e, now, writes := m.vol.src.blocks, m.shape, m.vol.src.trail;
    EntryIsOwned(m, c.header);
    CountOf(m, NewChain(p), s);
    BeganHere(m, {});
    LeaveBehind(m, c.blocks + c.extensions);
    MovedAway(m, d, t, s, from, e, now, writes, NewChain(p));
    Balance(free, m.alloc.Free(), own, SetOf(Freed(p)), Parts(c), Parts(NewChain(p)));
  }

  lemma EntryIsOwned(m: Mutator, h: Lba)
    requires IsEntry(m.shape, h)
    ensures m.shape.Owns(h)
  {}

  lemma MoveIs(p: Plan, c: FileChain, s: Bytes, blocks: seq<Lba>, exts: seq<Lba>)
    requires MovesTo(p, c, s, blocks, exts)
    ensures NewChain(p) == FileChain(c.header, |s|, blocks, exts) && Freed(p) == c.blocks + c.extensions
  {}

  lemma MovedAway(m: Mutator, d: Disk, t: Shape, s: Bytes, from: nat, e: Disk, now: Shape, writes: seq<Disk>,
          c: FileChain)
    requires m.Valid() && m.vol.f.payload > 0 && Began(m, e, now, m.rank, writes, {}) && now.Owns(c.header)
    requires CrashesLeave(writes, from, m.vol.f, c.header, s, s, 0) && OthersRead(d, m.vol.f, t, c.header, writes, from)
              && StillThere(d, m.vol.f, t, c.header, e, now)
    requires Canonical(e, m.vol.f, c) && Holds(e, m.vol.f, c, s) && Carries(e, now, m.vol.src.blocks, m.shape)
    requires m.views == {Tree(d, t)} && Shown(writes, from, m.vol.f, m.vol.root, {Tree(d, t)})
    ensures Harmless(m, d, t, c.header, s, s, 0, from) && Stored(m.vol.src.blocks, m.vol.f, c.header, s)
    ensures Canonical(m.vol.src.blocks, m.vol.f, c)
    ensures writes <= m.vol.src.trail
  {
    ClosingSpares(m, d, t, c.header, s, s, 0, from, e, now, writes, c);
    hide Mutator.Steady, Rooted, Canonical, Holds, Began, OthersRead, StillThere, BlocksOfChain, Stored, Carries,
      Shown, Tree, CrashesLeave, Harmless;
    ReadyNow(m);
    TablesSurvive(m, e, now, m.rank, writes, {}, c, s);
  }

  /** What a defragmentation did: how many runs the file took, how many it takes, and how
      many blocks moved. */
  datatype DefragReport = DefragReport(before: nat, after: nat, moved: nat)

  /** The blocks of a move, and the order they are to be fetched in. */
  type Berths = (seq<Lba>, seq<Lba>, seq<Lba>)

  /** Draw the blocks and plan the move. */
  method DrawMove(m: Mutator, c: FileChain, out: seq<bool>, ghost s: Bytes)
          returns (r: Result<Berths, MutateError>, ghost p: Plan)
    requires m.Valid() && m.vol.f.payload > 0 && m.vol.f.slots > 0 && m.shape.Owns(c.header)
    requires Began(m, m.vol.src.blocks, m.shape, m.rank, m.vol.src.trail, {}) && m.views == {m.Entries()}
    requires Canonical(m.vol.src.blocks, m.vol.f, c) && Holds(m.vol.src.blocks, m.vol.f, c, s)
    requires |out| == |c.blocks| + |c.extensions| && ExtsIn(out) == |c.extensions|
    modifies m.vol.src, m.alloc
    ensures m.Valid() && m.Entries() == old(m.Entries())
    ensures Harmless(m, old(m.vol.src.blocks), m.shape, c.header, s, s, 0, |old(m.vol.src.trail)|)
              && Stored(m.vol.src.blocks, m.vol.f, c.header, s)
    ensures Canonical(m.vol.src.blocks, m.vol.f, c) && Holds(m.vol.src.blocks, m.vol.f, c, s)
    ensures r.Ok? <==> |out| <= |old(m.alloc.Free())|
    ensures r.Err? ==> m.alloc.Free() == {}
    ensures r.Ok? ==> var (blocks, exts, order) := r.value;
              && |order| == |out| && Dealt(out, order, blocks, exts)
                  && (HasStretch(old(m.alloc.Free()), |out|) ==> InOneRun(order))
              && SetOf(order) <= old(m.alloc.Free()) && m.alloc.Free() == old(m.alloc.Free()) - SetOf(order)
              && Planned(m.vol.f, c, s, p, SetOf(order)) && MovesTo(p, c, s, blocks, exts)
              && AlmostGoing(m, p, s, SetOf(order), |old(m.vol.src.trail)|)
    ensures old(m.vol.src.trail) <= m.vol.src.trail
  {
    hide Mutator.Steady, Rooted, Canonical, Holds, Stored, Planned, Harmless, Tree, Began, NoRepeats, Moves,
      AlmostGoing, Mutator.Mine, SetOf, HasStretch, Dealt, Carries, InOneRun, BlocksOfChain;
    p := Relocation(c, s, [], []);
    ghost var d, writes, free := m.vol.src.blocks, m.vol.src.trail, m.alloc.Free();
    NotTheOldFile(m, c);
    var drawn := Draw(m, RunsAnew, |out|, c.header);
    DrawnHarmless(m, d, m.rank, writes, c, s);
    if drawn.Err? {
      return Err(drawn.error), p;
    }
    var blocks, exts := Deal(out, drawn.value);
    DealtSizes(out, drawn.value, blocks, exts);
    InSetOf(drawn.value);
    p := PlanTheMove(m, c, s, blocks, exts, SetOf(drawn.value), free, |writes|);
    r := Ok((blocks, exts, drawn.value));
  }

  /** Draw the blocks, plan the move, make it. */
  method Relocate(m: Mutator, c: FileChain, out: seq<bool>, runs: nat, ghost s: Bytes)
          returns (r: Result<DefragReport, MutateError>)
    requires m.Valid() && m.vol.f.payload > 0 && m.vol.f.slots > 0 && IsEntry(m.shape, c.header)
    requires Canonical(m.vol.src.blocks, m.vol.f, c) && Holds(m.vol.src.blocks, m.vol.f, c, s)
    requires |out| == |c.blocks| + |c.extensions| && ExtsIn(out) == |c.extensions| && InFetchOrder(out, m.vol.f.slots)
    modifies m, m.vol.src, m.alloc
    ensures m.Valid() && m.Entries() == old(m.Entries())
    ensures Harmless(m, old(m.vol.src.blocks), old(m.shape), c.header, s, s, 0, |old(m.vol.src.trail)|)
              && Stored(m.vol.src.blocks, m.vol.f, c.header, s)
    ensures r.Ok? <==> |out| <= |old(m.alloc.Free())|
    ensures r.Err? ==> m.alloc.Free() == {}
    ensures r.Ok? ==> r.value.before == runs && r.value.moved == |out| && |m.alloc.Free()| == |old(m.alloc.Free())|
    ensures r.Ok? ==>
              exists c2 :: Relocated(m.vol.src.blocks, m.vol.f, c, c2, old(m.alloc.Free()), m.alloc.Free(),
              r.value.after)
    ensures old(m.vol.src.trail) <= m.vol.src.trail
  {
    hide Mutator.Valid, Canonical, Holds, Stored, Planned, Harmless, Tree, Began, Parts, Moves, IsEntry,
      Mutator.BeganWith, AlmostGoing, Going,
      SetOf, HasStretch, Dealt, InFetchOrder, InOneRun, Relocated, BlocksOfChain, RunsIn;
    ghost var d, writes, free, t := m.vol.src.blocks, m.vol.src.trail, m.alloc.Free(), m.shape;
    EntryIsOwned(m, c.header);
    m.Begin({});
    BeganHere(m, {});
    var drawn;
    ghost var p;
    drawn, p := DrawMove(m, c, out, s);
    if drawn.Err? {
      return Err(drawn.error);
    }
    var after := MakeMove(m, c, out, drawn.value, p, s, |writes|, d, t, free);
    r := Ok(DefragReport(runs, after, |out|));
  }

  /** Make the move that was planned. */
  method MakeMove(m: Mutator, c: FileChain, out: seq<bool>, berths: Berths, ghost p: Plan, ghost s: Bytes,
          ghost from: nat, ghost d: Disk, ghost t: Shape, ghost free: set<Lba>)
                      returns (after: nat)
    requires m.Valid() && m.vol.f.payload > 0 && m.vol.f.slots > 0 && IsEntry(m.shape, c.header)
              && m.shape.Owns(c.header)
    requires Canonical(m.vol.src.blocks, m.vol.f, c) && Holds(m.vol.src.blocks, m.vol.f, c, s)
    requires |out| == |c.blocks| + |c.extensions| == |berths.2| && InFetchOrder(out, m.vol.f.slots)
              && Dealt(out, berths.2, berths.0, berths.1)
    requires HasStretch(free, |out|) ==> InOneRun(berths.2)
    requires SetOf(berths.2) <= free && m.alloc.Free() == free - SetOf(berths.2)
    requires Planned(m.vol.f, c, s, p, SetOf(berths.2)) && MovesTo(p, c, s, berths.0, berths.1)
              && AlmostGoing(m, p, s, SetOf(berths.2), from)
    requires Harmless(m, d, t, c.header, s, s, 0, from) && m.Entries() == Tree(d, t)
    modifies m, m.vol.src, m.alloc
    ensures m.Valid() && m.Entries() == old(m.Entries()) && |m.alloc.Free()| == |free|
    ensures Harmless(m, d, t, c.header, s, s, 0, from) && Stored(m.vol.src.blocks, m.vol.f, c.header, s)
    ensures exists c2 :: Relocated(m.vol.src.blocks, m.vol.f, c, c2, free, m.alloc.Free(), after)
    ensures old(m.vol.src.trail) <= m.vol.src.trail
  {
    hide Mutator.Valid, Canonical, Holds, Stored, Planned, Harmless, Tree, Parts, Moves, IsEntry, Mutator.BeganWith,
      AlmostGoing, Going,
      SetOf, HasStretch, Dealt, InFetchOrder, InOneRun, Relocated, BlocksOfChain, RunsIn;
    var (blocks, exts, order) := berths;
    after := CountRuns(order);
    OneRunIsOne(order);
    DealtSizes(out, order, blocks, exts);
    BeginWrites(m, p, s, SetOf(order), from);
    FinishMove(m, c, blocks, exts, p, s, SetOf(order), from, d, t, free);
    NowRelocated(m.vol.src.blocks, m.vol.f, c, s, out, order, blocks, exts, free, m.alloc.Free(), after);
  }

  lemma PlanTheMove(m: Mutator, c: FileChain, s: Bytes, blocks: seq<Lba>, exts: seq<Lba>, own: set<Lba>,
          free: set<Lba>, from: nat) returns (p: Plan)
    requires m.vol.f.payload > 0 && m.vol.f.slots > 0 && Canonical(m.vol.src.blocks, m.vol.f, c)
              && Holds(m.vol.src.blocks, m.vol.f, c, s)
              && NoRepeats(c.blocks)
    requires |blocks| == |c.blocks| && |exts| == |c.extensions| && NoRepeats(blocks + exts)
              && SetOf(blocks + exts) == own
    requires own <= free && (forall x :: x in free ==> x !in BlocksOfChain(c)) && forall x: Lba :: x in own ==>
              m.Mine(x)
    requires from <= |m.vol.src.trail| && forall i :: from <= i < |m.vol.src.trail| ==>
              Canonical(m.vol.src.trail[i], m.vol.f, c) && Holds(m.vol.src.trail[i], m.vol.f, c, s)
    ensures Planned(m.vol.f, c, s, p, own) && MovesTo(p, c, s, blocks, exts) && AlmostGoing(m, p, s, own, from)
  {
    hide Canonical, Holds, Planned, ExtCount, NoRepeats, Mutator.Mine, SetOf, BlocksOfChain, Moves, AlmostGoing;
    p := Relocation(c, s, blocks, exts);
    TailCount(m.vol.src.blocks, m.vol.f, c);
    MovePlanned(m.vol.src.blocks, m.vol.f, c, s, blocks, exts, free);
    SizeOfFile(m.vol.src.blocks, m.vol.f, c, s);
    PlanIsGoing(m, p, s, own, from);
  }

  lemma SizeOfFile(d: Disk, f: Format, c: FileChain, s: Bytes)
    requires Holds(d, f, c, s)
    ensures |s| == c.size
  {}

  lemma NowRelocated(e: Disk, f: Format, c: FileChain, s: Bytes, out: seq<bool>, order: seq<Lba>, blocks: seq<Lba>,
          exts: seq<Lba>, was: set<Lba>, now: set<Lba>, runs: nat)
    requires f.payload > 0 && InFetchOrder(out, f.slots) && Dealt(out, order, blocks, exts)
              && |out| == |order| == |blocks| + |exts|
              && runs == RunsIn(order)
    requires Canonical(e, f, FileChain(c.header, |s|, blocks, exts))
              && Parts(FileChain(c.header, |s|, blocks, exts)) <= was
    requires now == was - Parts(FileChain(c.header, |s|, blocks, exts)) + Parts(c)
              && (HasStretch(was, |order|) ==> runs <= 1)
    ensures exists c2 :: Relocated(e, f, c, c2, was, now, runs)
  {
    hide InFetchOrder, Dealt, Canonical, Parts, HasStretch, RunsIn;
    assert Relocated(e, f, c, FileChain(c.header, |s|, blocks, exts), was, now, runs);
  }

  /** Move a file's blocks, all but its header, into one run if there is one long enough,
      else into as few as there are; nothing is written when they are in one already. Every
      state a crash may leave holds the file whole, every other file and the directories. */
  method Defragment(m: Mutator, h: Lba, ghost s: Bytes) returns (r: Result<DefragReport, MutateError>)
    requires m.Valid() && m.vol.f.payload > 0 && m.vol.f.slots > 0
    requires h in m.Entries() || h == m.vol.root || !(h < |m.vol.src.blocks| && m.vol.src.blocks[h].Header?)
    requires h in m.Entries() && m.Entries()[h].kind.File? ==> Stored(m.vol.src.blocks, m.vol.f, h, s)
    modifies m, m.vol.src, m.alloc
    ensures m.Valid() && m.Entries() == old(m.Entries())
    ensures Shown(m.vol.src.trail, |old(m.vol.src.trail)|, m.vol.f, m.vol.root, {m.Entries()})
    ensures OthersRead(old(m.vol.src.blocks), m.vol.f, old(m.shape), h, m.vol.src.trail, |old(m.vol.src.trail)|)
    ensures h in m.Entries() && m.Entries()[h].kind.File? ==>
              Stored(m.vol.src.blocks, m.vol.f, h, s) && AllOrNothing(m.vol.src.trail, |old(m.vol.src.trail)|, m.vol.f,
                  h, s, s)
    ensures r.Ok? ==> h in m.Entries() && m.Entries()[h].kind.File?
    ensures r.Ok? && r.value.moved == 0 ==>
              r.value.after == r.value.before <= 1 && m.vol.src.blocks == old(m.vol.src.blocks)
    ensures r.Ok? ==> |m.alloc.Free()| == |old(m.alloc.Free())|
    ensures r.Ok? && r.value.moved > 0 ==> r.value.before > 1 && exists c, c2 ::
              Canonical(old(m.vol.src.blocks), m.vol.f, c) && c.header == h
              && Relocated(m.vol.src.blocks, m.vol.f, c, c2, old(m.alloc.Free()), m.alloc.Free(), r.value.after)
    ensures r.Ok? <==> h in m.Entries() && m.Entries()[h].kind.File?
                       && (Footprint(m.vol.f, |s|) <= |old(m.alloc.Free())|
                           || Contiguous(old(m.vol.src.blocks), m.vol.f, h))
    ensures r.Err? ==>
              m.alloc.Free() == if h in m.Entries() && m.Entries()[h].kind.File? then {} else old(m.alloc.Free())
    ensures r.Ok? ==> (r.value.moved == 0 <==> Contiguous(old(m.vol.src.blocks), m.vol.f, h))
    ensures StillThere(old(m.vol.src.blocks), m.vol.f, old(m.shape), h, m.vol.src.blocks, m.shape)
    ensures old(m.vol.src.trail) <= m.vol.src.trail
  {
    hide Mutator.Valid, Canonical, IsChain, Holds, Stored, Harmless, Tree, ExtCount, Shown, Dealt, InFetchOrder,
      Relocated, AllOrNothing,
      OthersRead, StillThere, CrashesLeave;
    NothingHappened(m, h, s, s, 0);
    HarmlessFacts(m, m.vol.src.blocks, m.shape, h, s, s, |m.vol.src.trail|);
    NoBlockIsEntry(m, h);
    var entry := m.vol.EntryAt(h);
    match entry {
      case Err(e) => return Err(Read(e));
      case Ok(b) =>
        if !b.kind.File? {
          return Err(NotAFile(h));
        }
    }
    StoredHasChain(m.vol.src.blocks, m.vol.f, h, s);
    var chain := m.vol.ReadFileChain(h);
    match chain {
      case Err(e) => return Err(Read(e));
      case Ok(c) =>
        OldChain(m, h, s, c);
        ChainSizes(m.vol.src.blocks, m.vol.f, c);
        var out, order := FetchOrder(c.blocks, c.extensions, m.vol.f.slots);
        var runs := CountRuns(order);
        ContiguousIs(m.vol.src.blocks, m.vol.f, c, out, order);
        if runs <= 1 {
          return Ok(DefragReport(runs, runs, 0));
        }
        ghost var d, t, from := m.vol.src.blocks, m.shape, |m.vol.src.trail|;
        r := Relocate(m, c, out, runs, s);
        HarmlessFacts(m, d, t, h, s, s, from);
    }
  }

  lemma NoBlockIsEntry(m: Mutator, h: Lba)
    requires m.Valid()
    ensures h in m.Entries() ==>
              IsEntry(m.shape, h) && h < |m.vol.src.blocks| && m.vol.src.blocks[h].Header?
              && m.vol.src.blocks[h].kind == m.Entries()[h].kind
    ensures m.vol.root < |m.vol.src.blocks| && m.vol.src.blocks[m.vol.root].Root? && m.vol.root !in m.Entries()
  {
    hide Mutator.Ready, Orderly, Mutation.Kept, Rooted;
    m.RootFacts();
    EntriesAreNoOrphans(m);
    if h in m.Entries() { EntryBlock(m, h); }
  }

  lemma ChainSizes(d: Disk, f: Format, c: FileChain)
    requires f.payload > 0 && f.slots > 0 && Canonical(d, f, c)
    ensures |c.extensions| == ExtCount(|c.blocks|, f.slots) && |c.blocks| + |c.extensions| == Footprint(f, c.size)
  {
    TailCount(d, f, c);
    ChainCounts(d, f, c);
  }

  lemma HarmlessFacts(m: Mutator, d: Disk, t: Shape, h: Lba, s: Bytes, u: Bytes, from: nat)
    requires m.vol.f.payload > 0 && Harmless(m, d, t, h, s, u, 0, from)
    ensures AllOrNothing(m.vol.src.trail, from, m.vol.f, h, s, u)
    ensures StillThere(d, m.vol.f, t, h, m.vol.src.blocks, m.shape)
    ensures OthersRead(d, m.vol.f, t, h, m.vol.src.trail, from)
              && Shown(m.vol.src.trail, from, m.vol.f, m.vol.root, {Tree(d, t)})
  {
    hide CrashesLeave, OthersRead, Shown, AllOrNothing, Tree;
    NothingBetween(m.vol.src.trail, from, m.vol.f, h, s, u, 0);
  }
}
