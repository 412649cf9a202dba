/**
 The one implementation behind write, append and truncate, from the plan to the frees,
 and what a crash at any of its writes leaves of the file and of every other file.
 */
module Edits {
  import opened Words
  import opened Disk
  import opened Allocation
  import opened Names
  import opened Forest
  import opened Directories
  import opened Dircache
  import opened Protocol
  import opened Reader
  import opened Steps
  import opened Mutation
  import opened Creation
  import opened Removal
  import opened Chains
  import opened Contents
  import opened Passes
  import opened Commits
  import opened Drafting
  import opened Survival
  import opened Editing

  /** The longest file the format can record. */
  const MAX_SIZE: nat := 0xFFFF_FFFF

  /** The new file whole, or the old one with its first blocks, `most` at most, as the edit
      makes them and every other byte as it was: never anything else. */
  ghost predicate OldOrNew(e: Disk, f: Format, h: Lba, s: Bytes, u: Bytes, most: nat)
    requires f.payload > 0
  {
    || Stored(e, f, h, u)
    || exists i, n :: 0 <= i <= most && n >= 0 && StartsAt(n, i, f.payload)
        && Stored(e, f, h, Torn(s, Overlaid(s, u), n))
  }

  /** It is so in every state from `from` on. */
  ghost predicate CrashesLeave(trail: seq<Disk>, from: nat, f: Format, h: Lba, s: Bytes, u: Bytes, most: nat)
    requires f.payload > 0
  {
    forall i :: from <= i < |trail| ==> OldOrNew(trail[i], f, h, s, u, most)
  }

  lemma UntornIsOld(e: Disk, f: Format, h: Lba, s: Bytes, u: Bytes, most: nat)
    requires f.payload > 0 && Stored(e, f, h, s)
    ensures OldOrNew(e, f, h, s, u, most)
  {
    hide Stored;
    assert Torn(s, Overlaid(s, u), 0) == s && StartsAt(0, 0, f.payload);
  }

  lemma OldStillLeaves(e: Disk, f: Format, j: Job, s: Bytes, most: nat)
    requires f.payload > 0 && OldStill(e, f, j, s) && j.kept <= most
    ensures OldOrNew(e, f, j.chain.header, s, After(j, s), most)
  {
    var i, n :| 0 <= i <= j.kept && n >= 0 && TornAt(e, f, j, s, i, n);
    StoredNow(e, f, j.chain, Torn(s, Seen(j, s), n));
    hide Canonical, Holds, Stored, Torn, Overlaid, Edited;
  }

  lemma LedgerLeaves(trail: seq<Disk>, from: nat, f: Format, j: Job, s: Bytes, most: nat)
    requires f.payload > 0 && Ledger(trail, from, f, j, s) && j.kept <= most
    ensures CrashesLeave(trail, from, f, j.chain.header, s, After(j, s), most)
  {
    hide OldStill, OldOrNew, Edited;
    forall i | from <= i < |trail|
      ensures OldOrNew(trail[i], f, j.chain.header, s, After(j, s), most)
    {
      OldStillLeaves(trail[i], f, j, s, most);
    }
  }

  // ---- The plan, with the volume at rest -----------------------------------------------------------

  lemma OldChain(m: Mutator, h: Lba, s: Bytes, c: FileChain)
    requires m.vol.f.payload > 0 && Stored(m.vol.src.blocks, m.vol.f, h, s) && c.header == h
              && IsChain(m.vol.src.blocks, m.vol.f, c)
    ensures Canonical(m.vol.src.blocks, m.vol.f, c) && Holds(m.vol.src.blocks, m.vol.f, c, s) && |s| == c.size
  {
    var a: FileChain :| a.header == h && Canonical(m.vol.src.blocks, m.vol.f, a)
        && Holds(m.vol.src.blocks, m.vol.f, a, s);
    hide LaidOut, Walks, CeilDiv, Chunk;
    ChainIsUnique(m.vol.src.blocks, m.vol.f, a, c);
  }

  /** While blocks are drawn and the bitmap is flushed every file reads as it did. */
  lemma DraftingSpares(m: Mutator, d: Disk, rank: map<Lba, int>, writes: seq<Disk>, c: FileChain, s: Bytes)
    requires m.Valid() && Began(m, d, m.shape, rank, writes, {}) && m.vol.f.payload > 0
    requires Canonical(d, m.vol.f, c) && Holds(d, m.vol.f, c, s) && m.shape.Owns(c.header)
    ensures Canonical(m.vol.src.blocks, m.vol.f, c) && Holds(m.vol.src.blocks, m.vol.f, c, s)
    ensures |writes| <= |m.vol.src.trail| && forall i :: |writes| <= i < |m.vol.src.trail| ==>
              Canonical(m.vol.src.trail[i], m.vol.f, c) && Holds(m.vol.src.trail[i], m.vol.f, c, s)
    ensures OthersRead(d, m.vol.f, m.shape, c.header, m.vol.src.trail, |writes|)
    ensures StillThere(d, m.vol.f, m.shape, c.header, m.vol.src.blocks, m.shape)
  {
    CanonicalIsChain(d, m.vol.f, c);
    hide Mutator.Steady, Rooted, Canonical, IsChain, Holds, Began, Grown, Spares;
    ReadyNow(m);
    StatesSpare(m, d, m.shape, rank, writes, {}, c, s);
    FileSurvives(m, d, m.shape, rank, writes, {}, c, s);
    TablesSurvive(m, d, m.shape, rank, writes, {}, c, s);
    NothingYet(d, m.vol.f, m.shape, c.header, writes);
    OthersPhase(m, d, m.shape, c.header, |writes|, d, m.shape, rank, writes, {});
  }

  /** What holds between an edit's writes from `from` on: every state left the directories
      and every other file alone, and the old file or the new one. */
  ghost predicate Harmless(m: Mutator, d: Disk, t: Shape, h: Lba, s: Bytes, u: Bytes, most: nat, from: nat)
    requires m.vol.f.payload > 0
    reads m`shape, m.vol.src
  {
    && CrashesLeave(m.vol.src.trail, from, m.vol.f, h, s, u, most)
    && OthersRead(d, m.vol.f, t, h, m.vol.src.trail, from) && StillThere(d, m.vol.f, t, h, m.vol.src.blocks, m.shape)
    && Shown(m.vol.src.trail, from, m.vol.f, m.vol.root, {Tree(d, t)})
  }

  lemma TreeStands(m: Mutator, d: Disk, s: Shape, writes: seq<Disk>, mine: set<Lba>, from: nat, tree: map<Lba, Fact>)
    requires m.Valid() && m.BeganWith(d, s, writes, mine) && m.views == {tree}
    requires Shown(writes, from, m.vol.f, m.vol.root, {tree})
    ensures Shown(m.vol.src.trail, from, m.vol.f, m.vol.root, {tree})
    ensures writes <= m.vol.src.trail
  {
    hide Mutator.Steady, Rooted, Shown;
    m.ShownSince(d, s, writes, mine);
    ShownOn(writes, m.vol.src.trail, from, m.vol.f, m.vol.root, {tree});
  }

  /** Read the file's chain, draw what the edit needs, and name the file's own blocks as
      what the writes to come are about. */
  method BeginEdit(m: Mutator, h: Lba, offset: nat, data: Bytes, size: nat, ghost s: Bytes)
    returns (r: Result<Plan, MutateError>, ghost own: set<Lba>)
    requires m.Valid() && IsEntry(m.shape, h) && Stored(m.vol.src.blocks, m.vol.f, h, s) && (|s| <= size || data == [])
    modifies m`live, m`base, m`origin, m`past, m`busy, m`views, m.vol.src, m.alloc
    ensures m.Valid() && m.Entries() == old(m.Entries())
    ensures Harmless(m, old(m.vol.src.blocks), old(m.shape), h, s, Edited(s, offset, data, size),
              Chosen(m.vol.f, m.layoutPolicy, |s|, offset, |data|, size).kept, |old(m.vol.src.trail)|)
    ensures Stored(m.vol.src.blocks, m.vol.f, h, s)
    ensures old(m.vol.src.trail) <= m.vol.src.trail
    ensures m.vol.f.payload > 0 && m.vol.f.slots > 0
    ensures r.Ok? <==> Draws(m.vol.f, m.layoutPolicy, |s|, offset, |data|, size) <= |old(m.alloc.Free())|
    ensures r.Err? ==> m.alloc.Free() == {}
    ensures r.Ok? ==>
              Going(m, r.value.job, s, own, |old(m.vol.src.trail)|)
              && Planned(m.vol.f, r.value.job.chain, s, r.value, own)
    ensures r.Ok? ==> r.value.job.chain.header == h && After(r.value.job, s) == Edited(s, offset, data, size)
    ensures r.Ok? ==>
              r.value.job.kept == Chosen(m.vol.f, m.layoutPolicy, |s|, offset, |data|, size).kept
              && r.value.job.size == size
    ensures r.Ok? ==>
              Canonical(m.vol.src.blocks, m.vol.f, r.value.job.chain)
              && Holds(m.vol.src.blocks, m.vol.f, r.value.job.chain, s)
    ensures r.Ok? ==>
              m.BeganWith(m.vol.src.blocks, m.shape, m.vol.src.trail, BlocksOfChain(r.value.job.chain))
              && m.views == {m.Entries()}
    ensures r.Ok? ==> own <= old(m.alloc.Free()) && m.alloc.Free() == old(m.alloc.Free()) - own
  {
    hide Mutator.Valid, Canonical, Holds, Stored, Planned, Going, AlmostGoing, Harmless, Edited, Chosen, Draws, Tree,
      Began;
    EntryOwned(m, h);
    ghost var writes := m.vol.src.trail;
    own := {};
    m.Begin({});
    BeganHere(m, {});
    var read := m.vol.ReadFileChain(h);
    match read {
      case Err(e) =>
        StoredHasChain(m.vol.src.blocks, m.vol.f, h, s);
        return Err(Read(e)), {};
      case Ok(c) =>
        OldChain(m, h, s, c);
        r, own := DraftEdit(m, c, offset, data, size, s);
        match r {
          case Err(_) =>
          case Ok(p) =>
            BeginWrites(m, p, s, own, |writes|);
        }
    }
  }

  method DraftEdit(m: Mutator, c: FileChain, offset: nat, data: Bytes, size: nat, ghost s: Bytes)
    returns (r: Result<Plan, MutateError>, ghost own: set<Lba>)
    requires m.Valid() && m.vol.f.payload > 0 && m.vol.f.slots > 0 && m.shape.Owns(c.header)
    requires Began(m, m.vol.src.blocks, m.shape, m.rank, m.vol.src.trail, {}) && m.views == {m.Entries()}
    requires Canonical(m.vol.src.blocks, m.vol.f, c) && Holds(m.vol.src.blocks, m.vol.f, c, s) && |s| == c.size
              && (|s| <= size || data == [])
    modifies m.vol.src, m.alloc
    ensures m.Valid() && m.Entries() == old(m.Entries()) && old(m.vol.src.trail) <= m.vol.src.trail
    ensures Harmless(m, old(m.vol.src.blocks), m.shape, c.header, s, Edited(s, offset, data, size),
                     Chosen(m.vol.f, m.layoutPolicy, |s|, offset, |data|, size).kept, |old(m.vol.src.trail)|)
    ensures Canonical(m.vol.src.blocks, m.vol.f, c) && Holds(m.vol.src.blocks, m.vol.f, c, s)
              && Stored(m.vol.src.blocks, m.vol.f, c.header, s)
    ensures r.Ok? <==> Draws(m.vol.f, m.layoutPolicy, |s|, offset, |data|, size) <= |old(m.alloc.Free())|
    ensures r.Err? ==> m.alloc.Free() == {}
    ensures r.Ok? ==> AlmostGoing(m, r.value, s, own, |old(m.vol.src.trail)|) && Planned(m.vol.f, c, s, r.value, own)
    ensures r.Ok? ==> r.value.job.chain == c && After(r.value.job, s) == Edited(s, offset, data, size)
    ensures r.Ok? ==>
              r.value.job.kept == Chosen(m.vol.f, m.layoutPolicy, |s|, offset, |data|, size).kept
              && r.value.job.size == size
    ensures r.Ok? ==> own <= old(m.alloc.Free()) && m.alloc.Free() == old(m.alloc.Free()) - own
  {
    hide Mutator.Valid, Canonical, Holds, Stored, Planned, AlmostGoing, CrashesLeave, OthersRead, StillThere,
      Mutator.Mine, Edited, Chosen, Draws, Tree, Began, Shown, Mutator.BeganWith;
    ghost var d, writes, u := m.vol.src.blocks, m.vol.src.trail, Edited(s, offset, data, size);
    ghost var most := Chosen(m.vol.f, m.layoutPolicy, |s|, offset, |data|, size).kept;
    r, own := Draft(m, c, offset, data, size, s);
    DraftingSpares(m, d, m.rank, writes, c, s);
    DraftLeaves(m, |writes|, c, s, u, most);
    BeganPart(m, d, m.shape, m.rank, writes, {});
    NothingShown(writes, m.vol.f, m.vol.root, {Tree(d, m.shape)});
    TreeStands(m, d, m.shape, writes, {}, |writes|, Tree(d, m.shape));
    match r {
      case Err(_) =>
      case Ok(p) => PlanIsGoing(m, p, s, own, |writes|);
    }
  }

  lemma EntryOwned(m: Mutator, h: Lba)
    requires m.Valid() && IsEntry(m.shape, h)
    ensures m.shape.Owns(h) && m.vol.f.payload > 0 && m.vol.f.slots > 0
  {
    hide Orderly, Rooted, Mutation.Kept, Logged, Spares, Sound;
  }

  lemma StoredHasChain(d: Disk, f: Format, h: Lba, s: Bytes)
    requires f.payload > 0 && Stored(d, f, h, s)
    ensures exists c: FileChain :: c.header == h && IsChain(d, f, c)
  {
    var c: FileChain :| c.header == h && Canonical(d, f, c) && Holds(d, f, c, s);
    hide LaidOut, Walks, CeilDiv;
    assert IsChain(d, f, c);
  }

  lemma DraftLeaves(m: Mutator, from: nat, c: FileChain, s: Bytes, u: Bytes, most: nat)
    requires m.vol.f.payload > 0
    requires from <= |m.vol.src.trail| && forall i :: from <= i < |m.vol.src.trail| ==>
              Canonical(m.vol.src.trail[i], m.vol.f, c) && Holds(m.vol.src.trail[i], m.vol.f, c, s)
    requires Canonical(m.vol.src.blocks, m.vol.f, c) && Holds(m.vol.src.blocks, m.vol.f, c, s)
    ensures CrashesLeave(m.vol.src.trail, from, m.vol.f, c.header, s, u, most)
              && Stored(m.vol.src.blocks, m.vol.f, c.header, s)
  {
    hide Canonical, Holds, Stored, OldOrNew;
    StoredNow(m.vol.src.blocks, m.vol.f, c, s);
    forall i | from <= i < |m.vol.src.trail|
      ensures OldOrNew(m.vol.src.trail[i], m.vol.f, c.header, s, u, most)
    {
      StoredNow(m.vol.src.trail[i], m.vol.f, c, s);
      UntornIsOld(m.vol.src.trail[i], m.vol.f, c.header, s, u, most);
    }
  }

  /** Everything but the file's blocks being what the operation is about. */
  ghost predicate AlmostGoing(m: Mutator, p: Plan, s: Bytes, own: set<Lba>, from: nat)
    reads m`live, m`shape, m`base, m`origin, m`busy, m.vol.src, m.alloc`words
    requires m.vol.f.payload > 0
  {
    && JobOk(m.vol.f, p.job, s) && Ledger(m.vol.src.trail, from, m.vol.f, p.job, s) && AllMine(m, own)
    && (forall k :: 0 <= k < |p.job.blocks| && Untouchable(p.job, k) ==> p.job.blocks[k] in own)
  }

  lemma PlanIsGoing(m: Mutator, p: Plan, s: Bytes, own: set<Lba>, from: nat)
    requires m.vol.f.payload > 0 && Planned(m.vol.f, p.job.chain, s, p, own) && forall x: Lba :: x in own ==> m.Mine(x)
    requires from <= |m.vol.src.trail| && |s| == p.job.chain.size
    requires forall i :: from <= i < |m.vol.src.trail| ==>
              Canonical(m.vol.src.trail[i], m.vol.f, p.job.chain) && Holds(m.vol.src.trail[i], m.vol.f, p.job.chain, s)
    ensures AlmostGoing(m, p, s, own, from)
  {
    hide JobOk, Canonical, Holds, TornAt, Mutator.Mine, ExtCount;
    forall i | from <= i < |m.vol.src.trail|
      ensures OldStill(m.vol.src.trail[i], m.vol.f, p.job, s)
    {
      Untorn(m.vol.src.trail[i], m.vol.f, p.job, s);
    }
  }

  /** From here on the file's own blocks are what the writes are about. */
  ghost method BeginWrites(m: Mutator, p: Plan, s: Bytes, own: set<Lba>, from: nat)
    requires m.Valid() && m.vol.f.payload > 0 && AlmostGoing(m, p, s, own, from) && m.shape.Owns(p.job.chain.header)
    modifies m`live, m`base, m`origin, m`past, m`busy, m`views
    ensures m.Valid() && Going(m, p.job, s, own, from) && m.views == {m.Entries()}
    ensures m.BeganWith(m.vol.src.blocks, m.shape, m.vol.src.trail, BlocksOfChain(p.job.chain))
  {
    hide JobOk, Ledger, Mutator.Steady, Rooted, Mutator.Mine;
    m.Begin(BlocksOfChain(p.job.chain));
  }

  // ---- The writes -----------------------------------------------------------------------------------

  /** The old file's blocks, each of which the bitmap calls allocated. */
  ghost predicate OldHeld(m: Mutator, c: FileChain)
    reads m.alloc`words
  {
    && NoRepeats(c.extensions) && (forall x :: x in c.blocks ==> x !in c.extensions)
    && forall x: Lba :: x in Parts(c) ==> m.alloc.IsCovered(x) && x !in m.alloc.Free() && x < m.alloc.blockCount
  }

  lemma OldIsHeld(m: Mutator, c: FileChain)
    requires m.Valid() && m.vol.f.payload > 0 && Canonical(m.vol.src.blocks, m.vol.f, c) && m.shape.Owns(c.header)
    ensures OldHeld(m, c)
    ensures forall k: Lba :: k < |m.vol.src.blocks| && IsFile(m.vol.src.blocks[k]) ==> k !in Parts(c)
  {
    hide Mutator.Ready, Named, Rooted, IsChain, Grown, LaidOut;
    m.InOrderNow();
    m.SameLength();
    var d := m.vol.src.blocks;
    ChainIsOwned(d, m.vol.f, m.shape, c);
    forall x: Lba | x in c.extensions
      ensures m.shape.Owns(x) && x in m.shape.up && m.shape.up[x].link.Ext?
    {
      var i :| 0 <= i < |c.extensions| && c.extensions[i] == x;
      assert m.shape.up[c.extensions[i]].link.Ext?;
    }
    forall x: Lba | x in Parts(c)
      ensures m.alloc.IsCovered(x) && x !in m.alloc.Free() && x < m.alloc.blockCount
    {
      assert m.shape.Owns(x);
      OwnedInside(d, m.shape, x);
    }
    forall k: Lba | k < |d| && IsFile(d[k])
      ensures k !in Parts(c)
    {
      HeaderIsNoPart(d, m.vol.f, m.shape, c, k);
    }
  }

  /** The passes, the extension blocks, the commit: after it the new file is in place and
      what only the old one used is the session's to give back. */
  method ApplyEdit(m: Mutator, p: Plan, ghost s: Bytes, ghost own: set<Lba>, ghost from: nat, ghost d: Disk,
          ghost t: Shape)
    returns (r: Result<(), MutateError>)
    requires m.vol.f.payload > 0 && Going(m, p.job, s, own, from) && Planned(m.vol.f, p.job.chain, s, p, own)
              && IsEntry(m.shape, p.job.chain.header)
    requires Canonical(m.vol.src.blocks, m.vol.f, p.job.chain) && Holds(m.vol.src.blocks, m.vol.f, p.job.chain, s)
    requires m.BeganWith(m.vol.src.blocks, m.shape, m.vol.src.trail, BlocksOfChain(p.job.chain))
    requires Harmless(m, d, t, p.job.chain.header, s, After(p.job, s), p.job.kept, from) && m.views == {m.Entries()}
              && m.Entries() == Tree(d, t)
    modifies m`live, m`shape, m`rank, m`base, m`origin, m`past, m`busy, m`views, m.vol.src
    ensures r.Ok? && m.Valid() && m.Entries() == old(m.Entries()) && IsEntry(m.shape, p.job.chain.header)
    ensures Harmless(m, d, t, p.job.chain.header, s, After(p.job, s), p.job.kept, from)
    ensures Canonical(m.vol.src.blocks, m.vol.f, NewChain(p))
              && Holds(m.vol.src.blocks, m.vol.f, NewChain(p), After(p.job, s))
    ensures m.BeganWith(m.vol.src.blocks, m.shape, m.vol.src.trail, {}) && m.views == {m.Entries()}
    ensures NoRepeats(Freed(p)) && forall x :: x in Freed(p) ==> m.Spent(x)
    ensures SetOf(Freed(p)) == Parts(p.job.chain) - Parts(NewChain(p)) && own == Parts(NewChain(p)) - Parts(p.job.chain)
    ensures forall x :: x in Parts(p.job.chain) ==> x !in m.alloc.Free()
    ensures old(m.vol.src.trail) <= m.vol.src.trail
  {
    hide Mutator.Valid, Canonical, IsChain, Holds, Going, Planned, Complete, CrashesLeave, OthersRead, StillThere,
      Edited, Tree, Began, JobOk,
      OldHeld, Freed, Parts, NewChain, Mutator.Spent, Mutator.BeganWith, Ledger, Shown;
    ghost var e, writes, c := m.vol.src.blocks, m.vol.src.trail, p.job.chain;
    AtRest(m, p, s, own, from);
    OldIsHeld(m, c);
    r := WriteBlocks(m, p, s, own, from);
    match r {
      case Err(_) => return;
      case Ok(_) =>
    }
    Switch(m, p.job.chain.header, p.job.blocks, p.exts, p.job.size, m.clock, p, s, own, from, d, t, e, writes);
  }

  /** The commit, with what came before it and what it leaves to do. */
  method Switch(m: Mutator, h: Lba, blocks: seq<Lba>, exts: seq<Lba>, size: nat, clock: Option<Date>, ghost p: Plan,
          ghost s: Bytes, ghost own: set<Lba>, ghost from: nat, ghost d: Disk, ghost t: Shape, ghost e: Disk,
          ghost writes: seq<Disk>)
    requires m.vol.f.payload > 0 && Going(m, p.job, s, own, from) && Planned(m.vol.f, p.job.chain, s, p, own)
              && IsEntry(m.shape, p.job.chain.header)
    requires h == p.job.chain.header && blocks == p.job.blocks && exts == p.exts && size == p.job.size
    requires Complete(m.vol.src.blocks, m.vol.f, p, s) && OldHeld(m, p.job.chain)
    requires Canonical(e, m.vol.f, p.job.chain) && forall k: Lba :: k < |e| && IsFile(e[k]) ==> k !in Parts(p.job.chain)
    requires Began(m, e, m.shape, m.rank, writes, BlocksOfChain(p.job.chain)) && m.views == {m.Entries()}
              && m.Entries() == Tree(d, t)
    requires OthersRead(d, m.vol.f, t, h, writes, from) && StillThere(d, m.vol.f, t, h, e, m.shape)
              && Shown(writes, from, m.vol.f, m.vol.root, {Tree(d, t)})
    modifies m`live, m`shape, m`rank, m`base, m`origin, m`past, m`busy, m`views, m.vol.src
    ensures m.Valid() && m.Entries() == old(m.Entries()) && IsEntry(m.shape, h)
    ensures Harmless(m, d, t, h, s, After(p.job, s), p.job.kept, from)
    ensures Canonical(m.vol.src.blocks, m.vol.f, NewChain(p))
              && Holds(m.vol.src.blocks, m.vol.f, NewChain(p), After(p.job, s))
    ensures m.BeganWith(m.vol.src.blocks, m.shape, m.vol.src.trail, {}) && m.views == {m.Entries()}
    ensures NoRepeats(Freed(p)) && forall x :: x in Freed(p) ==> m.Spent(x)
    ensures SetOf(Freed(p)) == Parts(p.job.chain) - Parts(NewChain(p)) && own == Parts(NewChain(p)) - Parts(p.job.chain)
    ensures forall x :: x in Parts(p.job.chain) ==> x !in m.alloc.Free()
    ensures writes <= m.vol.src.trail
  {
    hide Mutator.Valid, Canonical, IsChain, Holds, Going, Planned, Complete, CrashesLeave, OthersRead, StillThere,
      Edited, Tree, Began, JobOk,
      OldHeld, Freed, Parts, NewChain, Mutator.Spent, Mutator.BeganWith, Ledger, Shown;
    ghost var c, now, before := p.job.chain, m.shape, m.vol.src.trail;
    HeldFreed(m, p, s, own);
    OwnsItsHeader(m, p, s, own, from);
    LedgerNow(m, p, s, own, from);
    TakeEffect(m, h, blocks, exts, size, clock, p, s, own, from);
    CommitLeaves(m, before, from, p, s);
    BeganPart(m, e, now, m.rank, writes, BlocksOfChain(c));
    OthersSpared(m, d, t, from, e, now, writes, c);
    TreeStands(m, e, now, writes, BlocksOfChain(c), from, Tree(d, t));
    m.Begin({});
    HeldIsSpent(m, p);
    HeldIsTaken(m, c);
  }

  lemma OwnsItsHeader(m: Mutator, p: Plan, s: Bytes, own: set<Lba>, from: nat)
    requires Going(m, p.job, s, own, from)
    ensures m.shape.Owns(p.job.chain.header)
  {
    hide Mutator.Valid, JobOk, Ledger, AllMine;
  }

  lemma AtRest(m: Mutator, p: Plan, s: Bytes, own: set<Lba>, from: nat)
    requires Going(m, p.job, s, own, from) && m.vol.f.payload > 0
    requires m.BeganWith(m.vol.src.blocks, m.shape, m.vol.src.trail, BlocksOfChain(p.job.chain))
    ensures m.Valid() && m.shape.Owns(p.job.chain.header)
    ensures Began(m, m.vol.src.blocks, m.shape, m.rank, m.vol.src.trail, BlocksOfChain(p.job.chain))
  {
    hide JobOk, Ledger, AllMine, Mutator.Ready, Rooted, Mutator.BeganWith;
  }

  lemma HeldFreed(m: Mutator, p: Plan, s: Bytes, own: set<Lba>)
    requires OldHeld(m, p.job.chain) && Planned(m.vol.f, p.job.chain, s, p, own)
    ensures NoRepeats(Freed(p)) && SetOf(Freed(p)) == Parts(p.job.chain) - Parts(NewChain(p))
              && own == Parts(NewChain(p)) - Parts(p.job.chain)
  {
    hide Planned, Freed, Parts, NewChain, NoRepeats;
    FreedIs(m.vol.f, s, p, own);
  }

  lemma LedgerNow(m: Mutator, p: Plan, s: Bytes, own: set<Lba>, from: nat)
    requires Going(m, p.job, s, own, from)
    ensures m.vol.f.payload > 0 && Ledger(m.vol.src.trail, from, m.vol.f, p.job, s) && from <= |m.vol.src.trail|
  {
    GoingFacts(m, p.job, s, own, from);
    hide JobOk, AllMine, Mutator.Steady, Rooted, Ledger;
  }

  /** Up to the commit the old file, with it the new one. */
  lemma CommitLeaves(m: Mutator, before: seq<Disk>, from: nat, p: Plan, s: Bytes)
    requires m.vol.f.payload > 0 && m.vol.src.trail == before + [m.vol.src.blocks] && from <= |before|
              && Ledger(before, from, m.vol.f, p.job, s)
    requires Canonical(m.vol.src.blocks, m.vol.f, NewChain(p))
              && Holds(m.vol.src.blocks, m.vol.f, NewChain(p), After(p.job, s))
    ensures CrashesLeave(m.vol.src.trail, from, m.vol.f, p.job.chain.header, s, After(p.job, s), p.job.kept)
  {
    hide Canonical, Holds, Ledger, OldOrNew, Edited;
    LedgerLeaves(before, from, m.vol.f, p.job, s, p.job.kept);
    StoredNow(m.vol.src.blocks, m.vol.f, NewChain(p), After(p.job, s));
    StoredIsNew(m.vol.src.blocks, m.vol.f, p.job.chain.header, s, After(p.job, s), p.job.kept);
  }

  lemma StoredIsNew(e: Disk, f: Format, h: Lba, s: Bytes, u: Bytes, most: nat)
    requires f.payload > 0 && Stored(e, f, h, u)
    ensures OldOrNew(e, f, h, s, u, most)
  {}

  lemma OthersSpared(m: Mutator, d: Disk, t: Shape, from: nat, e: Disk, now: Shape, writes: seq<Disk>, c: FileChain)
    requires m.Valid() && m.vol.f.payload > 0 && Began(m, e, now, m.rank, writes, BlocksOfChain(c))
              && Canonical(e, m.vol.f, c) && now.Owns(c.header)
    requires OthersRead(d, m.vol.f, t, c.header, writes, from) && StillThere(d, m.vol.f, t, c.header, e, now)
    requires forall k: Lba :: k < |e| && IsFile(e[k]) ==> k !in Parts(c)
    requires forall x: Lba :: now.Owns(x) && x !in Parts(c) ==> m.shape.Owns(x)
    ensures OthersRead(d, m.vol.f, t, c.header, m.vol.src.trail, from)
    ensures StillThere(d, m.vol.f, t, c.header, m.vol.src.blocks, m.shape)
  {
    CanonicalIsChain(e, m.vol.f, c);
    hide Mutator.Steady, Rooted, Canonical, IsChain, Began, OthersRead, StillThere, BlocksOfChain, Parts;
    ReadyNow(m);
    BeganOrderly(m, e, now, m.rank, writes, BlocksOfChain(c));
    ChainIsAlone(e, m.vol.f, now, c);
    OthersPhase(m, d, t, c.header, from, e, now, m.rank, writes, BlocksOfChain(c));
  }

  lemma HeldIsTaken(m: Mutator, c: FileChain)
    requires OldHeld(m, c)
    ensures forall x :: x in Parts(c) ==> x !in m.alloc.Free()
  {}

  lemma HeldIsSpent(m: Mutator, p: Plan)
    requires m.Valid() && m.BeganWith(m.vol.src.blocks, m.shape, m.vol.src.trail, {}) && OldHeld(m, p.job.chain)
    requires SetOf(Freed(p)) == Parts(p.job.chain) - Parts(NewChain(p))
    requires forall x: Lba :: x in Parts(p.job.chain) && x !in Parts(NewChain(p)) ==> !m.shape.Owns(x)
    ensures forall x :: x in Freed(p) ==> m.Spent(x)
  {
    hide Mutator.Ready, Orderly, Rooted, Mutation.Kept, Freed, Parts, NewChain;
    m.SameLength();
    forall x | x in Freed(p)
      ensures m.Spent(x)
    {
      assert x in SetOf(Freed(p));
    }
  }

  // ---- The whole edit ---------------------------------------------------------------------------------

  /** What follows the commit leaves the new file and the others alone. */
  lemma ClosingSpares(m: Mutator, d: Disk, t: Shape, h: Lba, s: Bytes, u: Bytes, most: nat, from: nat, e: Disk,
          now: Shape, writes: seq<Disk>, c: FileChain)
    requires m.Valid() && m.vol.f.payload > 0 && Began(m, e, now, m.rank, writes, {}) && c.header == h && now.Owns(h)
    requires CrashesLeave(writes, from, m.vol.f, h, s, u, most) && OthersRead(d, m.vol.f, t, h, writes, from)
              && StillThere(d, m.vol.f, t, h, e, now)
    requires Canonical(e, m.vol.f, c) && Holds(e, m.vol.f, c, u) && Carries(e, now, m.vol.src.blocks, m.shape)
    requires m.views == {Tree(d, t)} && Shown(writes, from, m.vol.f, m.vol.root, {Tree(d, t)})
    ensures Harmless(m, d, t, h, s, u, most, from) && Stored(m.vol.src.blocks, m.vol.f, h, u)
    ensures writes <= m.vol.src.trail
  {
    CanonicalIsChain(e, m.vol.f, c);
    hide Mutator.Steady, Rooted, Canonical, IsChain, Holds, Began, OthersRead, StillThere, BlocksOfChain, Stored,
      OldOrNew, Spares, Grown,
      Carries, Shown, Tree, Mutator.BeganWith;
    ReadyNow(m);
    BeganPart(m, e, now, m.rank, writes, {});
    TreeStands(m, e, now, writes, {}, from, Tree(d, t));
    StatesSpare(m, e, now, m.rank, writes, {}, c, u);
    FileSurvives(m, e, now, m.rank, writes, {}, c, u);
    TablesSurvive(m, e, now, m.rank, writes, {}, c, u);
    StoredNow(m.vol.src.blocks, m.vol.f, c, u);
    CarriedStays(e, now, m.vol.src.blocks, m.shape, h);
    OthersPhase(m, d, t, h, from, e, now, m.rank, writes, {});
    forall i | from <= i < |m.vol.src.trail|
      ensures OldOrNew(m.vol.src.trail[i], m.vol.f, h, s, u, most)
    {
      if i < |writes| {
        assert m.vol.src.trail[i] == writes[i];
      } else {
        StoredNow(m.vol.src.trail[i], m.vol.f, c, u);
        StoredIsNew(m.vol.src.trail[i], m.vol.f, h, s, u, most);
      }
    }
  }

  /** The blocks a file of `size` bytes uses beside its header. */
  function Footprint(f: Format, size: nat): nat
    requires f.payload > 0 && f.slots > 0
  {
    CeilDiv(size, f.payload) + ExtCount(CeilDiv(size, f.payload), f.slots)
  }

  lemma PartsCount(d: Disk, f: Format, c: FileChain, s: Bytes)
    requires f.payload > 0 && f.slots > 0 && Canonical(d, f, c) && Holds(d, f, c, s)
    requires NoRepeats(c.blocks) && NoRepeats(c.extensions) && forall x :: x in c.blocks ==> x !in c.extensions
    ensures |Parts(c)| == Footprint(f, |s|)
  {
    TailCount(d, f, c);
    ChainCounts(d, f, c);
    hide Canonical, ExtCount, CeilDiv, NoRepeats, Chunk;
    SizeOfSet(c.blocks);
    SizeOfSet(c.extensions);
    assert SetOf(c.blocks) !! SetOf(c.extensions);
  }

  /** What came back and what was drawn balance. */
  lemma Balance(was: set<Lba>, now: set<Lba>, own: set<Lba>, gone: set<Lba>, before: set<Lba>, after: set<Lba>)
    requires own == after - before && gone == before - after && own <= was
              && (forall x :: x in before ==> x !in was - own)
    requires now == was - own + gone
    ensures |now| + |after| == |was| + |before|
  {
    SizeBy(after, before);
    SizeBy(before, after);
    assert after * before == before * after;
    SizeOfBoth(was - own, own, was);
    SizeOfBoth(was - own, gone, now);
  }

  lemma SizeBy(a: set<Lba>, b: set<Lba>)
    ensures |a| == |a - b| + |a * b|
  {
    SizeOfBoth(a - b, a * b, a);
  }

  lemma CountOf(m: Mutator, c: FileChain, s: Bytes)
    requires m.Valid() && m.vol.f.payload > 0 && m.vol.f.slots > 0 && m.shape.Owns(c.header)
    requires Canonical(m.vol.src.blocks, m.vol.f, c) && Holds(m.vol.src.blocks, m.vol.f, c, s)
    ensures |Parts(c)| == Footprint(m.vol.f, |s|)
  {
    hide Mutator.Valid, Canonical, Holds, ExtCount, CeilDiv, Parts;
    OldIsHeld(m, c);
    NotTheOldFile(m, c);
    PartsCount(m.vol.src.blocks, m.vol.f, c, s);
  }

  lemma ParentOf(m: Mutator, h: Lba)
    requires m.Valid() && h in m.Entries()
    ensures h < |m.vol.src.blocks| && m.vol.src.blocks[h].Header? && m.vol.src.blocks[h].parent == m.Entries()[h].dir
    ensures IsFolder(m.vol.src.blocks, m.shape, m.Entries()[h].dir)
  {
    hide Mutator.Ready, Mutation.Kept, Climbs, Named;
    ParentIsDirectory(m.vol.src.blocks, m.shape, h);
  }

  /** The writes of an edit, the advisory records and the frees. */
  method CompleteEdit(m: Mutator, p: Plan, ghost s: Bytes, ghost own: set<Lba>, ghost from: nat, ghost d: Disk,
          ghost t: Shape, ghost free: set<Lba>)
    returns (r: Result<nat, MutateError>)
    requires m.vol.f.payload > 0 && Going(m, p.job, s, own, from) && Planned(m.vol.f, p.job.chain, s, p, own)
              && m.vol.f.slots > 0
    requires m.Valid() && p.job.chain.header in m.Entries() && IsEntry(m.shape, p.job.chain.header)
    requires Canonical(m.vol.src.blocks, m.vol.f, p.job.chain) && Holds(m.vol.src.blocks, m.vol.f, p.job.chain, s)
    requires m.BeganWith(m.vol.src.blocks, m.shape, m.vol.src.trail, BlocksOfChain(p.job.chain))
    requires Harmless(m, d, t, p.job.chain.header, s, After(p.job, s), p.job.kept, from)
    requires own <= free && m.alloc.Free() == free - own && m.views == {m.Entries()} && m.Entries() == Tree(d, t)
    modifies m, m.vol.src, m.alloc
    ensures m.Valid() && m.Entries() == old(m.Entries())
    ensures Harmless(m, d, t, p.job.chain.header, s, After(p.job, s), p.job.kept, from)
    ensures if r.Ok? then r.value == p.job.size else m.vol.f.dircache
    ensures Stored(m.vol.src.blocks, m.vol.f, p.job.chain.header, After(p.job, s))
    ensures r.Ok? && m.vol.f.dircache ==>
              Mirrors(m.vol.src.blocks, m.vol.f, m.shape, old(m.Entries())[p.job.chain.header].dir)
    ensures r.Ok? && !m.vol.f.dircache ==>
              |m.alloc.Free()| + Footprint(m.vol.f, p.job.size) == |free| + Footprint(m.vol.f, |s|)
    ensures old(m.vol.src.trail) <= m.vol.src.trail
  {
    hide Mutator.Ready, Mutator.Steady, Rooted, Canonical, Holds, Stored, Planned, Going, CrashesLeave, OthersRead,
      StillThere, Edited, Tree,
      Began, Mirrors, ExtCount, CeilDiv,
      Carries, Parts, Freed, NewChain, IsFolder, Mutator.Spent, NoRepeats, Footprint, Shown;
    var h := p.job.chain.header;
    ParentOf(m, h);
    var parent := m.vol.src.blocks[h].parent;
    EntryOwned(m, h);
    CountOf(m, p.job.chain, s);
    var applied := ApplyEdit(m, p, s, own, from, d, t);
    match applied {
      case Err(e) => return Err(e);
      case Ok(_) =>
    }
    ghost var e, now, writes := m.vol.src.blocks, m.shape, m.vol.src.trail;
    ParentOf(m, h);
    EntryOwned(m, h);
    NewChainIs(p);
    CountOf(m, NewChain(p), After(p.job, s));
    BeganHere(m, {});
    var closed := Close(m, parent, Freed(p));
    ClosingSpares(m, d, t, h, s, After(p.job, s), p.job.kept, from, e, now, writes, NewChain(p));
    if !m.vol.f.dircache {
      Balance(free, m.alloc.Free(), own, SetOf(Freed(p)), Parts(p.job.chain), Parts(NewChain(p)));
    }
    match closed {
      case Err(x) => r := Err(x);
      case Ok(_) => r := Ok(p.job.size);
    }
  }

  lemma NewChainIs(p: Plan)
    ensures NewChain(p).header == p.job.chain.header
  {}

  /** The one implementation behind write, append and truncate: `data` lands at `offset`,
      the file ends at `size`, what neither covers is zero. */
  method EditFile(m: Mutator, h: Lba, offset: nat, data: Bytes, size: nat, ghost s: Bytes)
          returns (r: Result<nat, MutateError>)
    requires m.Valid() && h in m.Entries() && Stored(m.vol.src.blocks, m.vol.f, h, s) && (|s| <= size || data == [])
    modifies m, m.vol.src, m.alloc
    ensures m.Valid() && m.Entries() == old(m.Entries())
    ensures Harmless(m, old(m.vol.src.blocks), old(m.shape), h, s, Edited(s, offset, data, size),
                     Chosen(m.vol.f, m.layoutPolicy, |s|, offset, |data|, size).kept, |old(m.vol.src.trail)|)
    ensures size > MAX_SIZE ==> r == Err(FileTooLarge(size)) && m.vol.src.blocks == old(m.vol.src.blocks)
    ensures size > MAX_SIZE ==> m.alloc.Free() == old(m.alloc.Free())
    ensures r.Ok? ==> r.value == size && Stored(m.vol.src.blocks, m.vol.f, h, Edited(s, offset, data, size))
    ensures m.vol.f.slots > 0
    ensures size <= MAX_SIZE && !m.vol.f.dircache ==>
              (r.Ok? <==> Draws(m.vol.f, m.layoutPolicy, |s|, offset, |data|, size) <= |old(m.alloc.Free())|)
    ensures size <= MAX_SIZE && !m.vol.f.dircache && r.Err? ==> m.alloc.Free() == {}
    ensures r.Err? ==>
              Stored(m.vol.src.blocks, m.vol.f, h, s) || (m.vol.f.dircache
              && Stored(m.vol.src.blocks, m.vol.f, h, Edited(s, offset, data, size)))
    ensures r.Ok? && m.vol.f.dircache ==> Mirrors(m.vol.src.blocks, m.vol.f, m.shape, old(m.Entries())[h].dir)
    ensures r.Ok? && !m.vol.f.dircache ==>
              |m.alloc.Free()| + Footprint(m.vol.f, size) == |old(m.alloc.Free())| + Footprint(m.vol.f, |s|)
    ensures old(m.vol.src.trail) <= m.vol.src.trail
  {
    hide Mutator.Ready, Orderly, Rooted, Mutation.Kept, Canonical, Holds, Stored, Planned, Going, Harmless, Edited,
      Chosen, Draws, Tree,
      Began, Mirrors, ExtCount, CeilDiv,
      Carries, Parts, Freed, NewChain, IsFolder, Mutator.Spent, Mutator.BeganWith;
    EditsAnEntry(m, h);
    ghost var d, t, free, from := m.vol.src.blocks, m.shape, m.alloc.Free(), |m.vol.src.trail|;
    ghost var u, most := Edited(s, offset, data, size), Chosen(m.vol.f, m.layoutPolicy, |s|, offset, |data|, size).kept;
    if size > MAX_SIZE {
      NothingHappened(m, h, s, u, most);
      return Err(FileTooLarge(size));
    }
    var plan;
    ghost var own;
    plan, own := BeginEdit(m, h, offset, data, size, s);
    match plan {
      case Err(e) => return Err(e);
      case Ok(p) =>
        r := CompleteEdit(m, p, s, own, from, d, t, free);
    }
  }

  lemma EditsAnEntry(m: Mutator, h: Lba)
    requires m.Valid() && h in m.Entries()
    ensures IsEntry(m.shape, h) && m.vol.f.payload > 0 && m.vol.f.slots > 0
  {
    EntryOwned(m, h);
  }

  lemma NothingHappened(m: Mutator, h: Lba, s: Bytes, u: Bytes, most: nat)
    requires m.vol.f.payload > 0
    ensures Harmless(m, m.vol.src.blocks, m.shape, h, s, u, most, |m.vol.src.trail|)
  {
    NothingYet(m.vol.src.blocks, m.vol.f, m.shape, h, m.vol.src.trail);
    NothingShown(m.vol.src.trail, m.vol.f, m.vol.root, {m.Entries()});
  }

  // ---- Write, append, truncate --------------------------------------------------------------------------

  /** A crash leaves the old bytes or the new ones, never a mixture. */
  ghost predicate AllOrNothing(trail: seq<Disk>, from: nat, f: Format, h: Lba, s: Bytes, u: Bytes)
    requires f.payload > 0
  {
    forall i :: from <= i < |trail| ==> Stored(trail[i], f, h, s) || Stored(trail[i], f, h, u)
  }

  /** An edit that changes none of the old bytes, or keeps none of the old blocks, is all or nothing. */
  lemma NothingBetween(trail: seq<Disk>, from: nat, f: Format, h: Lba, s: Bytes, u: Bytes, most: nat)
    requires f.payload > 0 && CrashesLeave(trail, from, f, h, s, u, most)
    requires most == 0 || forall k :: 0 <= k < |s| && k < |u| ==> u[k] == s[k]
    ensures AllOrNothing(trail, from, f, h, s, u)
  {
    hide Stored, Torn;
    forall i | from <= i < |trail|
      ensures Stored(trail[i], f, h, s) || Stored(trail[i], f, h, u)
    {
      assert OldOrNew(trail[i], f, h, s, u, most);
      if !Stored(trail[i], f, h, u) {
        var k: nat, n: nat :| k <= most && StartsAt(n, k, f.payload)
            && Stored(trail[i], f, h, Torn(s, Overlaid(s, u), n));
        if most == 0 { TornAtZero(s, Overlaid(s, u), n, f.payload); } else { NothingTorn(s, u, n); }
      }
    }
  }

  lemma TornAtZero(s: Bytes, v: Bytes, n: nat, payload: nat)
    requires |v| == |s| && StartsAt(n, 0, payload)
    ensures Torn(s, v, n) == s
  {}

  lemma FiledInFolder(m: Mutator, dir: Lba, name: Bytes)
    requires m.Valid()
    ensures (exists h :: Filed(m.Entries(), m.vol.f.intl, dir, name, h)) ==> IsFolder(m.vol.src.blocks, m.shape, dir)
  {
    hide Mutator.Valid, Tree, IsFolder, SameName;
    if h :| Filed(m.Entries(), m.vol.f.intl, dir, name, h) { ParentOf(m, h); }
  }

  /** The file `name` of directory `dir`, if it is one. */
  method ExpectFile(m: Mutator, dir: Lba, name: Bytes) returns (r: Result<Lba, MutateError>)
    requires m.Valid() && m.Handle(dir)
    ensures r.Ok? ==> Filed(m.Entries(), m.vol.f.intl, dir, name, r.value) && m.Entries()[r.value].kind.File?
    ensures r.Ok? ==> r.value < |m.vol.src.blocks| && IsFile(m.vol.src.blocks[r.value])
    ensures r.Ok? ==> |name| <= MaxName(m.vol.f)
    ensures r.Err? ==> |name| > MaxName(m.vol.f) || forall h :: Filed(m.Entries(), m.vol.f.intl, dir, name, h) ==>
              !m.Entries()[h].kind.File?
  {
    hide Mutator.Ready, Orderly, Mutation.Kept, Rooted, IsFolder, SameName;
    var entry := m.ExpectEntry(dir, name);
    MatchesInTree(m.vol.src.blocks, m.vol.f, m.shape, dir, name);
    FiledInFolder(m, dir, name);
    match entry {
      case Err(e) => r := Err(e);
      case Ok(h) =>
        OnlyFiled(m, dir, name, h);
        r := if m.vol.src.blocks[h].kind.File? then Ok(h) else Err(NotAFile(h));
    }
  }

  lemma OnlyFiled(m: Mutator, dir: Lba, name: Bytes, h: Lba)
    requires m.Valid() && Matches(m.vol.src.blocks, m.vol.f, m.shape, dir, name, h)
    ensures Filed(m.Entries(), m.vol.f.intl, dir, name, h)
    ensures forall k :: Filed(m.Entries(), m.vol.f.intl, dir, name, k) ==> k == h
  {
    hide Mutator.Ready, Mutation.Kept, Rooted, SameName;
    forall k | Filed(m.Entries(), m.vol.f.intl, dir, name, k)
      ensures k == h
    {
      SameFiled(m.vol.src.blocks, m.vol.f, m.shape, m.rank, dir, name, h, k);
    }
  }

  /** The files `name` may mean hold `s`. */
  ghost predicate Known(m: Mutator, dir: Lba, name: Bytes, s: Bytes)
    requires m.vol.f.payload > 0
    reads m`shape, m.vol.src
  {
    forall h :: Filed(m.Entries(), m.vol.f.intl, dir, name, h) && m.Entries()[h].kind.File? ==>
        Stored(m.vol.src.blocks, m.vol.f, h, s)
  }

  /** The edit is possible: the name is a file's, the format can record the new size, and
      there are the blocks to draw. */
  ghost predicate MayEdit(m: Mutator, dir: Lba, name: Bytes, size: nat, draws: nat)
    reads m`shape, m.vol.src, m.alloc`words
  {
    && (exists h :: Filed(m.Entries(), m.vol.f.intl, dir, name, h) && m.Entries()[h].kind.File?)
    && |name| <= MaxName(m.vol.f) && size <= MAX_SIZE && draws <= |m.alloc.Free()|
  }

  /** What a failed edit of file `h`, if it came to one, leaves there: what was in it or, where
      only a cache could not follow, what was to be. */
  ghost predicate Unedited(m: Mutator, h: Lba, s: Bytes, u: Bytes)
    requires m.vol.f.payload > 0
    reads m.vol.src
  {
    h == 0 || Stored(m.vol.src.blocks, m.vol.f, h, s) || (m.vol.f.dircache && Stored(m.vol.src.blocks, m.vol.f, h, u))
  }

  /** Write `data` into a file at `offset`, extending it with zeros up to there and with
      `data` past its end. */
  method WriteFile(m: Mutator, dir: Lba, name: Bytes, offset: nat, data: Bytes, ghost s: Bytes)
          returns (r: Result<nat, MutateError>, ghost h: Lba)
    requires m.Valid() && m.vol.f.payload > 0 && m.vol.f.slots > 0 && m.Handle(dir) && Known(m, dir, name, s)
    modifies m, m.vol.src, m.alloc
    ensures m.Valid() && m.Entries() == old(m.Entries())
    ensures r.Ok? ==> Filed(m.Entries(), m.vol.f.intl, dir, name, h) && r.value == Max(|s|, offset + |data|)
    ensures r.Ok? ==> Stored(m.vol.src.blocks, m.vol.f, h, Edited(s, offset, data, r.value))
    ensures r.Err? ==> Unedited(m, h, s, Edited(s, offset, data, Max(|s|, offset + |data|)))
    ensures StillThere(old(m.vol.src.blocks), m.vol.f, old(m.shape), h, m.vol.src.blocks, m.shape)
    ensures !m.vol.f.dircache ==> (r.Ok? <==>
              old(MayEdit(m, dir, name, Max(|s|, offset + |data|),
                  Draws(m.vol.f, m.layoutPolicy, |s|, offset, |data|, Max(|s|, offset + |data|)))))
    ensures r.Err? && !m.vol.f.dircache ==>
              m.alloc.Free() == if old(MayEdit(m, dir, name, Max(|s|, offset + |data|), 0)) then {}
              else old(m.alloc.Free())
    ensures r.Ok? && !m.vol.f.dircache ==>
              |m.alloc.Free()| + Footprint(m.vol.f, Max(|s|, offset + |data|)) ==
              |old(m.alloc.Free())| + Footprint(m.vol.f, |s|)
    ensures OthersRead(old(m.vol.src.blocks), m.vol.f, old(m.shape), h, m.vol.src.trail, |old(m.vol.src.trail)|)
    ensures Shown(m.vol.src.trail, |old(m.vol.src.trail)|, m.vol.f, m.vol.root, {m.Entries()})
    ensures h == 0 || (Filed(m.Entries(), m.vol.f.intl, dir, name, h) && m.Entries()[h].kind.File?)
    ensures h != 0 ==>
              CrashesLeave(m.vol.src.trail, |old(m.vol.src.trail)|, m.vol.f, h, s,
              Edited(s, offset, data, Max(|s|, offset + |data|)),
                                    Chosen(m.vol.f, m.layoutPolicy, |s|, offset, |data|,
                                        Max(|s|, offset + |data|)).kept)
    ensures h != 0 && m.layoutPolicy && offset == 0 && |data| >= |s| ==>
              AllOrNothing(m.vol.src.trail, |old(m.vol.src.trail)|, m.vol.f, h, s, data)
    ensures old(m.vol.src.trail) <= m.vol.src.trail
  {
    hide Mutator.Valid, Stored, OthersRead, StillThere, CrashesLeave, Edited, Tree, Chosen, FileIs, AllOrNothing,
      SameName, Footprint, Mirrors, Shown;
    NothingYet(m.vol.src.blocks, m.vol.f, m.shape, 0, m.vol.src.trail);
    NothingShown(m.vol.src.trail, m.vol.f, m.vol.root, {m.Entries()});
    var file := ExpectFile(m, dir, name);
    match file {
      case Err(e) => return Err(e), 0;
      case Ok(lba) =>
        h := lba;
        SizeIs(m, h, s);
        var size := Max(m.vol.src.blocks[lba].size, offset + |data|);
        r := EditFile(m, lba, offset, data, size, s);
        WholeRewrite(m, |old(m.vol.src.trail)|, h, s, offset, data, size);
    }
  }

  function Max(a: nat, b: nat): nat {
    if a < b then b else a
  }

  lemma SizeIs(m: Mutator, h: Lba, s: Bytes)
    requires m.vol.f.payload > 0 && Stored(m.vol.src.blocks, m.vol.f, h, s)
    ensures h < |m.vol.src.blocks| && IsFile(m.vol.src.blocks[h]) && m.vol.src.blocks[h].size == |s|
  {
    hide LaidOut, Walks, CeilDiv;
  }

  lemma WholeRewrite(m: Mutator, from: nat, h: Lba, s: Bytes, offset: nat, data: Bytes, size: nat)
    requires m.vol.f.payload > 0 && size == Max(|s|, offset + |data|)
    requires CrashesLeave(m.vol.src.trail, from, m.vol.f, h, s, Edited(s, offset, data, size),
              Chosen(m.vol.f, m.layoutPolicy, |s|, offset, |data|, size).kept)
    ensures m.layoutPolicy && offset == 0 && |data| >= |s| ==> AllOrNothing(m.vol.src.trail, from, m.vol.f, h, s, data)
  {
    if m.layoutPolicy && offset == 0 && |data| >= |s| {
      assert Edited(s, offset, data, size) == data;
      NothingBetween(m.vol.src.trail, from, m.vol.f, h, s, data, 0);
    }
  }

  /** Append `data`: every state a crash may leave holds exactly the old bytes or exactly
      the old bytes and `data`. */
  method Append(m: Mutator, dir: Lba, name: Bytes, data: Bytes, ghost s: Bytes)
          returns (r: Result<nat, MutateError>, ghost h: Lba)
    requires m.Valid() && m.vol.f.payload > 0 && m.vol.f.slots > 0 && m.Handle(dir) && Known(m, dir, name, s)
    modifies m, m.vol.src, m.alloc
    ensures m.Valid() && m.Entries() == old(m.Entries())
    ensures r.Ok? ==>
              Filed(m.Entries(), m.vol.f.intl, dir, name, h) && r.value == |s| + |data|
              && Stored(m.vol.src.blocks, m.vol.f, h, s + data)
    ensures r.Err? ==> Unedited(m, h, s, s + data)
    ensures StillThere(old(m.vol.src.blocks), m.vol.f, old(m.shape), h, m.vol.src.blocks, m.shape)
    ensures h == 0 || (Filed(m.Entries(), m.vol.f.intl, dir, name, h) && m.Entries()[h].kind.File?)
    ensures !m.vol.f.dircache ==>
              (r.Ok? <==> old(MayEdit(m, dir, name, |s| + |data|,
              Draws(m.vol.f, m.layoutPolicy, |s|, |s|, |data|, |s| + |data|))))
    ensures r.Err? && !m.vol.f.dircache ==>
              m.alloc.Free() == if old(MayEdit(m, dir, name, |s| + |data|, 0)) then {} else old(m.alloc.Free())
    ensures r.Ok? && !m.vol.f.dircache ==>
              |m.alloc.Free()| + Footprint(m.vol.f, |s| + |data|) == |old(m.alloc.Free())| + Footprint(m.vol.f, |s|)
    ensures OthersRead(old(m.vol.src.blocks), m.vol.f, old(m.shape), h, m.vol.src.trail, |old(m.vol.src.trail)|)
    ensures Shown(m.vol.src.trail, |old(m.vol.src.trail)|, m.vol.f, m.vol.root, {m.Entries()})
    ensures h != 0 ==> AllOrNothing(m.vol.src.trail, |old(m.vol.src.trail)|, m.vol.f, h, s, s + data)
    ensures old(m.vol.src.trail) <= m.vol.src.trail
  {
    hide Mutator.Valid, Stored, OthersRead, StillThere, CrashesLeave, Edited, Tree, Chosen, FileIs, AllOrNothing,
      SameName, Footprint, Mirrors, Shown;
    NothingYet(m.vol.src.blocks, m.vol.f, m.shape, 0, m.vol.src.trail);
    NothingShown(m.vol.src.trail, m.vol.f, m.vol.root, {m.Entries()});
    NothingLogged(m.vol.src.trail, m.vol.f, s, s + data);
    var file := ExpectFile(m, dir, name);
    match file {
      case Err(e) => return Err(e), 0;
      case Ok(lba) =>
        h := lba;
        SizeIs(m, h, s);
        var at := m.vol.src.blocks[lba].size;
        r := EditFile(m, lba, at, data, at + |data|, s);
        Appended(s, data);
        NothingBetween(m.vol.src.trail, |old(m.vol.src.trail)|, m.vol.f, h, s, s + data,
                       Chosen(m.vol.f, m.layoutPolicy, |s|, |s|, |data|, |s| + |data|).kept);
    }
  }

  lemma NothingLogged(trail: seq<Disk>, f: Format, s: Bytes, u: Bytes)
    requires f.payload > 0
    ensures forall h :: AllOrNothing(trail, |trail|, f, h, s, u)
  {}

  lemma Appended(s: Bytes, data: Bytes)
    ensures Edited(s, |s|, data, |s| + |data|) == s + data
  {}

  /** A file cut to `size`, or extended to it with zeros. */
  function Resized(s: Bytes, size: nat): (u: Bytes)
    ensures |u| == size
  {
    if size <= |s| then s[..size] else s + Zeros(size - |s|)
  }

  /** Set a file's length, in either direction: all or nothing, like an append. */
  method Truncate(m: Mutator, dir: Lba, name: Bytes, size: nat, ghost s: Bytes)
          returns (r: Result<(), MutateError>, ghost h: Lba)
    requires m.Valid() && m.vol.f.payload > 0 && m.vol.f.slots > 0 && m.Handle(dir) && Known(m, dir, name, s)
    modifies m, m.vol.src, m.alloc
    ensures m.Valid() && m.Entries() == old(m.Entries())
    ensures r.Ok? ==>
              Filed(m.Entries(), m.vol.f.intl, dir, name, h) && Stored(m.vol.src.blocks, m.vol.f, h, Resized(s, size))
    ensures r.Err? ==> Unedited(m, h, s, Resized(s, size))
    ensures StillThere(old(m.vol.src.blocks), m.vol.f, old(m.shape), h, m.vol.src.blocks, m.shape)
    ensures h == 0 || (Filed(m.Entries(), m.vol.f.intl, dir, name, h) && m.Entries()[h].kind.File?)
    ensures !m.vol.f.dircache ==>
              (r.Ok? <==> old(MayEdit(m, dir, name, size, Draws(m.vol.f, m.layoutPolicy, |s|, size, 0, size))))
    ensures r.Err? && !m.vol.f.dircache ==>
              m.alloc.Free() == if old(MayEdit(m, dir, name, size, 0)) then {} else old(m.alloc.Free())
    ensures r.Ok? && !m.vol.f.dircache ==>
              |m.alloc.Free()| + Footprint(m.vol.f, size) == |old(m.alloc.Free())| + Footprint(m.vol.f, |s|)
    ensures OthersRead(old(m.vol.src.blocks), m.vol.f, old(m.shape), h, m.vol.src.trail, |old(m.vol.src.trail)|)
    ensures Shown(m.vol.src.trail, |old(m.vol.src.trail)|, m.vol.f, m.vol.root, {m.Entries()})
    ensures h != 0 ==> AllOrNothing(m.vol.src.trail, |old(m.vol.src.trail)|, m.vol.f, h, s, Resized(s, size))
    ensures old(m.vol.src.trail) <= m.vol.src.trail
  {
    hide Mutator.Valid, Stored, OthersRead, StillThere, CrashesLeave, Edited, Tree, Chosen, FileIs, AllOrNothing,
      SameName, Footprint,
      Mirrors, Shown, Resized;
    NothingYet(m.vol.src.blocks, m.vol.f, m.shape, 0, m.vol.src.trail);
    NothingShown(m.vol.src.trail, m.vol.f, m.vol.root, {m.Entries()});
    NothingLogged(m.vol.src.trail, m.vol.f, s, Resized(s, size));
    var file := ExpectFile(m, dir, name);
    match file {
      case Err(e) => return Err(e), 0;
      case Ok(lba) =>
        h := lba;
        var edited := EditFile(m, lba, size, [], size, s);
        CutOrExtended(s, size);
        NothingBetween(m.vol.src.trail, |old(m.vol.src.trail)|, m.vol.f, h, s, Resized(s, size),
                       Chosen(m.vol.f, m.layoutPolicy, |s|, size, 0, size).kept);
        match edited {
          case Err(e) => r := Err(e);
          case Ok(_) => r := Ok(());
        }
    }
  }

  lemma CutOrExtended(s: Bytes, size: nat)
    ensures Edited(s, size, [], size) == Resized(s, size)
    ensures forall k :: 0 <= k < |s| && k < size ==> Resized(s, size)[k] == s[k]
  {}
}
