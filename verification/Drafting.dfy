/**
 Planning an edit before anything is written: which of a file's blocks stay, where the
 others go, and whether the extension blocks have to be made anew.
 */
module Drafting {
  import opened Words
  import opened Disk
  import opened Allocation
  import opened Forest
  import opened Directories
  import opened Protocol
  import opened Reader
  import opened Steps
  import opened Mutation
  import opened Chains
  import opened Contents
  import opened Passes

  // ---- Drawing blocks -----------------------------------------------------------------------------

  /** `list` is blocks that were free and now are not, no two the same, and no others. */
  ghost predicate Drawn(list: seq<Allocated>, was: set<Lba>, now: set<Lba>) {
    && (forall i, j :: 0 <= i < j < |list| ==> list[i].lba != list[j].lba)
    && (forall i :: 0 <= i < |list| ==> list[i].lba in was)
    && now == was - Lbas(list)
  }

  lemma NothingDrawn(was: set<Lba>)
    ensures Drawn([], was, was)
  {}

  lemma DrawnOnTop(a: seq<Allocated>, b: seq<Allocated>, x: set<Lba>, y: set<Lba>, z: set<Lba>)
    requires Drawn(a, x, y) && Drawn(b, y, z)
    ensures Drawn(a + b, x, z)
  {
    var all := a + b;
    assert Lbas(all) == Lbas(a) + Lbas(b) by {
      assert forall e :: e in all <==> e in a || e in b;
    }
    forall i, j | 0 <= i < j < |all|
      ensures all[i].lba != all[j].lba
    {
      if i < |a| <= j {
        assert a[i] in a && a[i].lba in Lbas(a);
      }
    }
  }

  lemma OneDrawn(a: Allocated, was: set<Lba>, now: set<Lba>)
    requires a.lba in was && now == was - {a.lba}
    ensures Drawn([a], was, now)
  {
    assert Lbas([a]) == {a.lba};
  }

  lemma RunDrawn(run: seq<Allocated>, was: set<Lba>, now: set<Lba>)
    requires Ascending(run) && Lbas(run) <= was && now == was - Lbas(run)
    ensures Drawn(run, was, now)
  {
    forall i | 0 <= i < |run|
      ensures run[i].lba in was
    {
      assert run[i] in run;
    }
  }

  lemma OneFewer(was: set<Lba>, x: Lba)
    requires x in was
    ensures |was - {x}| + 1 == |was|
  {}

  lemma RunFewer(was: set<Lba>, run: seq<Allocated>)
    requires Ascending(run) && Lbas(run) <= was
    ensures |was - Lbas(run)| + |run| == |was|
  {
    RunSize(run);
    assert was == (was - Lbas(run)) + Lbas(run);
  }

  lemma {:induction false} RunSize(run: seq<Allocated>)
    requires Ascending(run)
    ensures |Lbas(run)| == |run|
    decreases |run|
  {
    if run != [] {
      var rest, last := run[..|run| - 1], run[|run| - 1];
      RunSize(rest);
      assert run == rest + [last];
      assert Lbas(run) == Lbas(rest) + {last.lba};
      forall e | e in rest
        ensures e.lba != last.lba
      {
        var i :| 0 <= i < |rest| && rest[i] == e;
        assert run[i] == e;
      }
    }
  }

  /** `n` blocks, each near the one before, the first near `hint`. */
  method DrawNear(m: Mutator, n: nat, hint: nat) returns (r: Result<seq<Allocated>, MutateError>)
    requires m.Valid()
    modifies m.alloc`words, m.alloc`free, m.alloc`dirty, m.alloc`cursor
    ensures m.Valid() && m.alloc.Covered() == old(m.alloc.Covered()) && forall x :: old(m.Mine(x)) ==> m.Mine(x)
    ensures r.Ok? <==> n <= |old(m.alloc.Free())|
    ensures r.Err? ==> m.alloc.Free() == {}
    ensures r.Ok? ==> |r.value| == n && Drawn(r.value, old(m.alloc.Free()), m.alloc.Free())
  {
    hide Mutator.Steady, Rooted, Mutator.Unused, Mutator.Mine, Drawn;
    ghost var was := m.alloc.Free();
    NothingDrawn(was);
    var list: seq<Allocated> := [];
    var near := hint;
    while |list| < n
      invariant forall x :: old(m.Mine(x)) ==> m.Mine(x)
      invariant |list| + |m.alloc.Free()| == |was|
      invariant |list| <= n && m.Valid() && m.alloc.Covered() == old(m.alloc.Covered())
                && Drawn(list, was, m.alloc.Free())
      decreases n - |list|
    {
      ghost var before := m.alloc.Free();
      var a := m.AllocateNear(near);
      if a.Err? {
        return Err(a.error);
      }
      OneFewer(before, a.value.lba);
      OneDrawn(a.value, before, m.alloc.Free());
      DrawnOnTop(list, [a.value], was, before, m.alloc.Free());
      near := a.value.lba;
      list := list + [a.value];
    }
    r := Ok(list);
  }

  /** How blocks are drawn: each near the one before; in as few runs as the volume has to
      offer, each looked for where the one before ends; or each looked for from the start. */
  datatype Manner = OneByOne | RunsOnward | RunsAnew

  /** What has been drawn of `n` blocks: all of them in one run, or nothing, if there is
      one run long enough. */
  ghost predicate DrawnSoFar(list: seq<Allocated>, n: nat, was: set<Lba>, now: set<Lba>) {
    && |list| <= n && |list| + |now| == |was| && Drawn(list, was, now)
    && (list == [] ==> now == was)
    && (list != [] && HasStretch(was, n) ==> |list| == n && Ascending(list))
  }

  lemma DrawnOneRun(list: seq<Allocated>, n: nat, was: set<Lba>, before: set<Lba>, run: seq<Allocated>, now: set<Lba>)
    requires DrawnSoFar(list, n, was, before) && |list| < n && 0 < |run| <= n - |list|
    requires Ascending(run) && Lbas(run) <= before && now == before - Lbas(run)
    requires HasStretch(before, n - |list|) ==> |run| == n - |list|
    ensures DrawnSoFar(list + run, n, was, now)
  {
    hide HasStretch, Drawn, Ascending, Lbas;
    RunFewer(before, run);
    RunDrawn(run, before, now);
    DrawnOnTop(list, run, was, before, now);
    if list == [] { assert list + run == run && before == was && n - |list| == n; }
  }

  /** `n` blocks in runs, the first near `hint`; one run if there is one long enough. */
  method DrawRuns(m: Mutator, n: nat, hint: nat, manner: Manner) returns (r: Result<seq<Allocated>, MutateError>)
    requires m.Valid()
    modifies m.alloc`words, m.alloc`free, m.alloc`dirty, m.alloc`cursor
    ensures m.Valid() && m.alloc.Covered() == old(m.alloc.Covered()) && forall x :: old(m.Mine(x)) ==> m.Mine(x)
    ensures r.Ok? <==> n <= |old(m.alloc.Free())|
    ensures r.Err? ==> m.alloc.Free() == {}
    ensures r.Ok? ==> |r.value| == n && Drawn(r.value, old(m.alloc.Free()), m.alloc.Free())
    ensures r.Ok? && HasStretch(old(m.alloc.Free()), n) ==> Ascending(r.value)
  {
    hide Mutator.Steady, Rooted, Mutator.Unused, Mutator.Mine, DrawnSoFar, Drawn, HasStretch, Ascending;
    ghost var was := m.alloc.Free();
    NoneDrawn(n, was);
    var list: seq<Allocated> := [];
    var near: nat := hint;
    while |list| < n
      invariant forall x :: old(m.Mine(x)) ==> m.Mine(x)
      invariant |list| <= n && m.Valid() && m.alloc.Covered() == old(m.alloc.Covered())
                && DrawnSoFar(list, n, was, m.alloc.Free())
      decreases n - |list|
    {
      ghost var before := m.alloc.Free();
      var run := m.AllocateRun(n - |list|, near);
      if run.Err? {
        TooFew(list, n, was);
        return Err(run.error);
      }
      DrawnOneRun(list, n, was, before, run.value, m.alloc.Free());
      if manner.RunsOnward? { near := run.value[|run.value| - 1].lba + 1; }
      list := list + run.value;
    }
    AllDrawn(list, n, was, m.alloc.Free());
    r := Ok(list);
  }

  lemma NoneDrawn(n: nat, was: set<Lba>)
    ensures DrawnSoFar([], n, was, was)
  {}

  lemma TooFew(list: seq<Allocated>, n: nat, was: set<Lba>)
    requires DrawnSoFar(list, n, was, {}) && |list| < n
    ensures |was| < n
  {}

  lemma AllDrawn(list: seq<Allocated>, n: nat, was: set<Lba>, now: set<Lba>)
    requires DrawnSoFar(list, n, was, now) && |list| == n
    ensures Drawn(list, was, now) && n <= |was| && (HasStretch(was, n) ==> Ascending(list))
  {}

  // ---- Fetch order ----------------------------------------------------------------------------------

  function ExtCount(n: nat, slots: nat): nat
    requires slots > 0
  {
    if n <= slots then 0 else CeilDiv(n - slots, slots)
  }

  function ExtsIn(out: seq<bool>): nat {
    if out == [] then 0 else ExtsIn(out[..|out| - 1]) + if out[|out| - 1] then 1 else 0
  }

  predicate AtItsPlace(out: seq<bool>, p: nat, slots: nat)
    requires p < |out|
  {
    out[p] ==> p - ExtsIn(out[..p]) == GroupEnd(ExtsIn(out[..p]), slots)
  }

  /** How many data blocks the header and `k` extension blocks list when full. */
  function GroupEnd(k: nat, slots: nat): nat {
    (k + 1) * slots
  }

  /** Every extension block of `out` comes right after the last data block before its own. */
  ghost predicate InFetchOrder(out: seq<bool>, slots: nat) {
    forall p :: 0 <= p < |out| ==> AtItsPlace(out, p, slots)
  }

  lemma OneMorePosition(out: seq<bool>, slots: nat, b: bool)
    requires InFetchOrder(out, slots) && (b ==> |out| - ExtsIn(out) == GroupEnd(ExtsIn(out), slots))
    ensures InFetchOrder(out + [b], slots) && ExtsIn(out + [b]) == ExtsIn(out) + if b then 1 else 0
  {
    var more := out + [b];
    assert more[..|out|] == out && more[|out|] == b;
    assert AtItsPlace(more, |out|, slots);
    hide ExtsIn, GroupEnd;
    forall p | 0 <= p < |out|
      ensures AtItsPlace(more, p, slots)
    {
      assert AtItsPlace(out, p, slots) && more[..p] == out[..p];
    }
  }

  /** The order a reader fetches a file's blocks in: `true` where an extension block goes. */
  method InterleavedPositions(n: nat, exts: nat, slots: nat) returns (out: seq<bool>)
    requires slots > 0 && exts == ExtCount(n, slots)
    ensures |out| == n + exts && ExtsIn(out) == exts && InFetchOrder(out, slots)
  {
    out := [];
    var i, used, inGroup := 0, 0, 0;
    while i < n
      invariant 0 <= i <= n && used <= exts && 0 <= inGroup < slots && |out| == i + used
      invariant ExtsIn(out) == used && InFetchOrder(out, slots)
      invariant used < exts ==> i == used * slots + inGroup
      invariant used == exts ==> n <= exts * slots + slots
      decreases n - i
    {
      OneMorePosition(out, slots, false);
      out := out + [false];
      i := i + 1;
      inGroup := inGroup + 1;
      if inGroup == slots {
        inGroup := 0;
        if used < exts {
          MulMonotone(used, used + 1, slots);
          OneMorePosition(out, slots, true);
          out := out + [true];
          used := used + 1;
        }
      }
    }
    if used < exts { EnoughGroups(n, used, slots, inGroup); }
  }

  /** Every group but the first has an extension block. */
  lemma EnoughGroups(n: nat, used: nat, slots: nat, r: nat)
    requires slots > 0 && r < slots && n == used * slots + r
    ensures ExtCount(n, slots) <= used
  {
    var q := ExtCount(n, slots);
    if q > used { MulMonotone(used + 1, q, slots); }
    if q > 0 { MulMonotone(q - 1, q, slots); }
    MulMonotone(used, used + 1, slots);
  }

  /** Which block of the run goes where: `true` takes the next extension block. */
  ghost predicate Dealt(out: seq<bool>, all: seq<Lba>, blocks: seq<Lba>, exts: seq<Lba>) {
    && |out| <= |all| && |exts| == ExtsIn(out) && |blocks| == |out| - ExtsIn(out)
    && forall p :: 0 <= p < |out| ==> ExtsIn(out[..p]) <= p && DealtAt(out, all, blocks, exts, p)
  }

  /** In fetch order, block `p` of the run. */
  predicate DealtAt(out: seq<bool>, all: seq<Lba>, blocks: seq<Lba>, exts: seq<Lba>, p: nat)
    requires p < |out| <= |all| && ExtsIn(out[..p]) <= p
  {
    if out[p] then ExtsIn(out[..p]) < |exts| && exts[ExtsIn(out[..p])] == all[p]
    else p - ExtsIn(out[..p]) < |blocks| && blocks[p - ExtsIn(out[..p])] == all[p]
  }

  lemma {:induction false} ExtsAtMost(out: seq<bool>)
    ensures ExtsIn(out) <= |out|
    decreases |out|
  {
    if out != [] { ExtsAtMost(out[..|out| - 1]); }
  }

  /** Hand the blocks of a run to the file in the order a reader will fetch them. */
  method Deal(out: seq<bool>, all: seq<Lba>) returns (blocks: seq<Lba>, exts: seq<Lba>)
    requires |out| == |all|
    ensures Dealt(out, all, blocks, exts)
    ensures NoRepeats(all) ==> NoRepeats(blocks + exts)
    ensures SetOf(blocks + exts) == SetOf(all)
  {
    blocks, exts := [], [];
    var p := 0;
    while p < |out|
      invariant 0 <= p <= |out| && Dealt(out[..p], all, blocks, exts)
      invariant forall x :: x in blocks || x in exts <==> x in all[..p]
      invariant NoRepeats(all) ==> NoRepeats(blocks + exts)
    {
      DealOne(out, all, blocks, exts, p);
      if out[p] {
        exts := exts + [all[p]];
      } else {
        blocks := blocks + [all[p]];
      }
      p := p + 1;
    }
    assert out[..p] == out && all[..p] == all;
  }

  lemma DealOne(out: seq<bool>, all: seq<Lba>, blocks: seq<Lba>, exts: seq<Lba>, p: nat)
    requires p < |out| == |all| && Dealt(out[..p], all, blocks, exts)
    requires forall x :: x in blocks || x in exts <==> x in all[..p]
    requires NoRepeats(all) ==> NoRepeats(blocks + exts)
    ensures out[p] ==> Dealt(out[..p + 1], all, blocks, exts + [all[p]])
    ensures !out[p] ==> Dealt(out[..p + 1], all, blocks + [all[p]], exts)
    ensures NoRepeats(all) ==> NoRepeats(blocks + (exts + [all[p]])) && NoRepeats((blocks + [all[p]]) + exts)
    ensures all[..p + 1] == all[..p] + [all[p]]
  {
    DealtOn(out, all, blocks, exts, p);
    hide Dealt;
    if NoRepeats(all) {
      assert all[p] !in all[..p];
      MoreApart(blocks, exts, all[p]);
    }
  }

  lemma DealtOn(out: seq<bool>, all: seq<Lba>, blocks: seq<Lba>, exts: seq<Lba>, p: nat)
    requires p < |out| == |all| && Dealt(out[..p], all, blocks, exts)
    ensures out[p] ==> Dealt(out[..p + 1], all, blocks, exts + [all[p]])
    ensures !out[p] ==> Dealt(out[..p + 1], all, blocks + [all[p]], exts)
  {
    var now := out[..p + 1];
    assert now[..p] == out[..p];
    ExtsAtMost(out[..p]);
    var blocks2, exts2 := if out[p] then blocks else blocks + [all[p]], if out[p] then exts + [all[p]] else exts;
    assert ExtsIn(now) == ExtsIn(now[..p]) + if out[p] then 1 else 0;
    assert DealtAt(now, all, blocks2, exts2, p);
    hide ExtsIn;
    forall q | 0 <= q < p
      ensures ExtsIn(now[..q]) <= q && DealtAt(now, all, blocks2, exts2, q)
    {
      assert now[..q] == out[..p][..q];
      assert DealtAt(out[..p], all, blocks, exts, q);
    }
  }

  lemma MoreApart(a: seq<Lba>, b: seq<Lba>, x: Lba)
    requires NoRepeats(a + b) && x !in a && x !in b
    ensures NoRepeats(a + (b + [x])) && NoRepeats((a + [x]) + b)
  {
    var all := a + b;
    assert forall i :: 0 <= i < |a| ==> all[i] == a[i];
    assert forall i :: 0 <= i < |b| ==> all[|a| + i] == b[i];
    assert a + (b + [x]) == all + [x];
    assert forall y :: y in all ==> y in a || y in b;
    var c := (a + [x]) + b;
    forall i, j | 0 <= i < j < |c|
      ensures c[i] != c[j]
    {
      if i < |a| < j { assert all[i] != all[j - 1]; }
      if |a| < i { assert all[i - 1] != all[j - 1]; }
    }
  }

  // ---- The plan --------------------------------------------------------------------------------------

  /** What is decided before any block is drawn: whether the whole file is laid out anew,
      how many of its blocks the edit builds on and keeps, which of those is replaced, and
      whether the extension blocks are. */
  datatype Choice = Choice(full: bool, eff: nat, kept: nat, cow: Option<nat>, extDirty: bool)

  function Chosen(f: Format, layoutPolicy: bool, was: nat, offset: nat, written: nat, size: nat): Choice
    requires f.payload > 0
  {
    var full := layoutPolicy && offset == 0 && written >= was;
    var n := CeilDiv(size, f.payload);
    var eff := if full then 0 else CeilDiv(was, f.payload);
    var kept := Min(eff, n);
    var relength := kept > 0 && LenAt(was, f.payload, kept - 1) != LenAt(size, f.payload, kept - 1);
    var cow := if !f.ffs && relength then Some(kept - 1) else None;
    Choice(full, eff, kept, cow,
           full || (n != eff && (n > f.slots || eff > f.slots)) || (cow.Some? && cow.value >= f.slots))
  }

  /** How many blocks it draws: those the file grows by, the replacement, the extension blocks. */
  function Needed(f: Format, ch: Choice, n: nat): nat
    requires f.slots > 0
  {
    (if n > ch.eff then n - ch.eff else 0) + (if ch.cow.Some? then 1 else 0) + (if ch.extDirty
        then ExtCount(n, f.slots) else 0)
  }

  /** How many blocks an edit of a file of `was` bytes has to draw. */
  function Draws(f: Format, layoutPolicy: bool, was: nat, offset: nat, written: nat, size: nat): nat
    requires f.payload > 0 && f.slots > 0
  {
    Needed(f, Chosen(f, layoutPolicy, was, offset, written, size), CeilDiv(size, f.payload))
  }

  datatype Plan = Plan(job: Job, exts: seq<Lba>, extDirty: bool)

  /** The plan fits the file; the blocks it needs beyond the file's own are those of `own`. */
  ghost predicate Planned(f: Format, c: FileChain, s: Bytes, p: Plan, own: set<Lba>) {
    && JobOk(f, p.job, s) && p.job.chain == c
    && (forall k :: 0 <= k < |p.job.blocks| && Untouchable(p.job, k) ==> p.job.blocks[k] in own)
    && f.slots > 0 && |p.exts| == ExtCount(|p.job.blocks|, f.slots) && NoRepeats(p.exts)
    && (p.extDirty ==> forall x :: x in p.exts ==> x in own && x !in p.job.blocks)
    && (!p.extDirty ==>
        p.exts == c.extensions && p.job.blocks[Min(f.slots, |p.job.blocks|)..] == c.blocks[Min(f.slots, |c.blocks|)..])
    && (forall x :: x in own ==> x in p.job.blocks || x in p.exts)
    && (forall x :: x in own ==> x !in BlocksOfChain(c))
  }

  /** The numbers of blocks just drawn, once the bitmap says on the disk that they are taken. */
  method Referred(m: Mutator, list: seq<Allocated>) returns (r: Result<seq<Lba>, MutateError>)
    ensures r.Ok? ==> |r.value| == |list| && forall i :: 0 <= i < |list| ==> r.value[i] == list[i].lba
    ensures (forall i :: 0 <= i < |m.alloc.dirty| ==> !m.alloc.dirty[i]) ==> r.Ok?
  {
    var out: seq<Lba> := [];
    while |out| < |list|
      invariant |out| <= |list| && forall i :: 0 <= i < |out| ==> out[i] == list[i].lba
      decreases |list| - |out|
    {
      var ref := m.alloc.Reference(list[|out|]);
      if ref.Err? {
        return Err(Alloc(ref.error));
      }
      out := out + [ref.value];
    }
    r := Ok(out);
  }

  /** One block right after another. */
  predicate InOneRun(list: seq<Lba>) {
    forall i :: 0 <= i < |list| ==> list[i] == list[0] + i
  }

  /** Draw `n` blocks, in runs from the header on or one by one from the file's end, and
      get the bitmap that says so onto the disk. */
  method Draw(m: Mutator, manner: Manner, n: nat, hint: nat) returns (r: Result<seq<Lba>, MutateError>)
    requires m.Valid()
    modifies m.vol.src, m.alloc
    ensures m.Valid() && m.Entries() == old(m.Entries()) && |m.vol.src.blocks| == |old(m.vol.src.blocks)|
    ensures forall x: Lba :: x < |m.vol.src.blocks| && !old(m.vol.src.blocks)[x].Bitmap? ==>
              m.vol.src.blocks[x] == old(m.vol.src.blocks)[x]
    ensures forall x: Lba :: old(m.Mine(x)) ==> m.Mine(x)
    ensures Carries(old(m.vol.src.blocks), m.shape, m.vol.src.blocks, m.shape)
    ensures r.Ok? <==> n <= |old(m.alloc.Free())|
    ensures r.Err? ==> m.alloc.Free() == {}
    ensures r.Ok? ==> |r.value| == n && NoRepeats(r.value) && SetOf(r.value) <= old(m.alloc.Free())
    ensures r.Ok? ==> m.alloc.Free() == old(m.alloc.Free()) - SetOf(r.value)
    ensures r.Ok? ==> forall x: Lba :: x in r.value ==> m.Mine(x)
    ensures r.Ok? && !manner.OneByOne? && HasStretch(old(m.alloc.Free()), n) ==> InOneRun(r.value)
  {
    hide Mutator.Valid, Mutator.Unused, Mutator.Mine, Drawn, FreeOnDisk, Tree, Carries, HasStretch, NoRepeats, SetOf,
      Lbas;
    CarriesItself(m.vol.src.blocks, m.shape);
    FreeIsOpen(m);
    ghost var was := m.alloc.Free();
    var drawn;
    if manner.OneByOne? {
      drawn := DrawNear(m, n, hint);
    } else {
      drawn := DrawRuns(m, n, hint, manner);
    }
    if drawn.Err? {
      return Err(drawn.error);
    }
    DrawnFacts(drawn.value, was, m.alloc.Free());
    r := Secure(m, drawn.value, was);
  }

  lemma FreeIsOpen(m: Mutator)
    requires m.Valid()
    ensures forall x :: x in m.alloc.Free() ==> m.Unused(x) && m.alloc.IsCovered(x)
  {
    hide Mutator.Steady, Mutator.Unused, Rooted;
    m.FreeIsUnused();
  }

  /** Get the bits of the blocks just drawn onto the disk, and only then have their numbers. */
  method Secure(m: Mutator, list: seq<Allocated>, ghost was: set<Lba>) returns (r: Result<seq<Lba>, MutateError>)
    requires m.Valid() && Lbas(list) <= was && m.alloc.Free() == was - Lbas(list)
    requires forall x :: x in was ==> m.Unused(x) && m.alloc.IsCovered(x)
    requires forall i, j :: 0 <= i < j < |list| ==> list[i].lba != list[j].lba
    modifies m.vol.src, m.alloc`dirty
    ensures m.Valid() && m.Entries() == old(m.Entries()) && |m.vol.src.blocks| == |old(m.vol.src.blocks)|
    ensures forall x: Lba :: x < |m.vol.src.blocks| && !old(m.vol.src.blocks)[x].Bitmap? ==>
              m.vol.src.blocks[x] == old(m.vol.src.blocks)[x]
    ensures forall x: Lba :: old(m.Mine(x)) ==> m.Mine(x)
    ensures Carries(old(m.vol.src.blocks), m.shape, m.vol.src.blocks, m.shape) && m.alloc.Free() == old(m.alloc.Free())
    ensures r.Ok? && |r.value| == |list| && NoRepeats(r.value) && SetOf(r.value) == Lbas(list)
              && forall i :: 0 <= i < |list| ==> r.value[i] == list[i].lba
    ensures forall x: Lba :: x in r.value ==> m.Mine(x)
  {
    hide Mutator.Steady, Rooted, Mutator.Unused, Mutator.Mine, FreeOnDisk, Tree, Carries, NoRepeats, SetOf, Lbas;
    m.FlushBitmap();
    r := Referred(m, list);
    AreLbas(list, r.value);
    DrawnAreMine(m, r.value, was);
  }

  /** What was free, and is taken in memory and on the disk, is the operation's own. */
  lemma DrawnAreMine(m: Mutator, list: seq<Lba>, was: set<Lba>)
    requires SetOf(list) <= was && m.alloc.Free() == was - SetOf(list)
    requires forall x :: x in was ==> m.Unused(x) && m.alloc.IsCovered(x)
    requires forall x :: m.Unused(x) && m.alloc.IsCovered(x) && x !in m.alloc.Free() ==> m.Mine(x)
    ensures forall x: Lba :: x in list ==> m.Mine(x)
  {
    hide Mutator.Unused, Mutator.Mine;
    forall x: Lba | x in list
      ensures m.Mine(x)
    {
      assert x in SetOf(list);
    }
  }

  lemma DrawnFacts(list: seq<Allocated>, was: set<Lba>, now: set<Lba>)
    requires Drawn(list, was, now)
    ensures now == was - Lbas(list) && Lbas(list) <= was
    ensures forall i, j :: 0 <= i < j < |list| ==> list[i].lba != list[j].lba
  {}

  lemma AreLbas(list: seq<Allocated>, lbas: seq<Lba>)
    requires |lbas| == |list| && forall i :: 0 <= i < |list| ==> lbas[i] == list[i].lba
    ensures SetOf(lbas) == Lbas(list)
    ensures (forall i, j :: 0 <= i < j < |list| ==> list[i].lba != list[j].lba) ==> NoRepeats(lbas)
  {
    forall i | 0 <= i < |list|
      ensures lbas[i] in Lbas(list) && list[i].lba in SetOf(lbas)
    {
      assert list[i] in list && lbas[i] in lbas;
    }
  }

  /** Block `i` of the file as it will be: new, a replacement, or the one it was. */
  function Assembled(c: FileChain, eff: nat, cow: Option<nat>, news: seq<Lba>, cowAt: seq<Lba>, i: nat): Lba {
    if i >= eff then Nth(news, i - eff)
    else if cow == Some(i) then Nth(cowAt, 0)
    else Nth(c.blocks, i)
  }

  method Assemble(c: FileChain, eff: nat, cow: Option<nat>, news: seq<Lba>, cowAt: seq<Lba>, n: nat)
          returns (blocks: seq<Lba>)
    ensures |blocks| == n && forall i :: 0 <= i < n ==> blocks[i] == Assembled(c, eff, cow, news, cowAt, i)
  {
    blocks := [];
    while |blocks| < n
      invariant |blocks| <= n && forall i :: 0 <= i < |blocks| ==> blocks[i] == Assembled(c, eff, cow, news, cowAt, i)
      decreases n - |blocks|
    {
      blocks := blocks + [Assembled(c, eff, cow, news, cowAt, |blocks|)];
    }
  }

  /** How many blocks of each sort a choice draws. */
  ghost predicate Furnished(f: Format, c: FileChain, ch: Choice, n: nat, news: seq<Lba>, cowAt: seq<Lba>,
          exts: seq<Lba>)
  {
    && f.slots > 0 && f.payload > 0 && |c.blocks| == CeilDiv(c.size, f.payload)
    && |news| == (if n > ch.eff then n - ch.eff else 0) && |cowAt| == (if ch.cow.Some? then 1 else 0)
    && |exts| == (if ch.extDirty then ExtCount(n, f.slots) else 0)
    && NoRepeats((news + cowAt) + exts) && NoRepeats(c.blocks)
    && forall x :: x in news || x in cowAt || x in exts ==> x !in BlocksOfChain(c)
  }

  lemma FurnishedFacts(f: Format, c: FileChain, ch: Choice, n: nat, news: seq<Lba>, cowAt: seq<Lba>, exts: seq<Lba>)
    requires Furnished(f, c, ch, n, news, cowAt, exts)
    ensures NoRepeats(news) && NoRepeats(exts)
    ensures forall x :: x in news || x in cowAt ==> x !in exts
    ensures forall x :: x in cowAt ==> x !in news
  {
    var all := (news + cowAt) + exts;
    assert forall i :: 0 <= i < |news| ==> all[i] == news[i];
    assert forall i :: 0 <= i < |cowAt| ==> all[|news| + i] == cowAt[i];
    assert forall i :: 0 <= i < |exts| ==> all[|news| + |cowAt| + i] == exts[i];
  }

  /** Where block `i` of the new file came from. */
  lemma AssembledFrom(f: Format, policy: bool, c: FileChain, offset: nat, written: nat, size: nat, ch: Choice,
          news: seq<Lba>, cowAt: seq<Lba>, exts: seq<Lba>, i: nat)
    requires f.payload > 0 && ch == Chosen(f, policy, c.size, offset, written, size)
    requires Furnished(f, c, ch, CeilDiv(size, f.payload), news, cowAt, exts) && i < CeilDiv(size, f.payload)
    ensures i >= ch.eff ==> i - ch.eff < |news| && Assembled(c, ch.eff, ch.cow, news, cowAt, i) == news[i - ch.eff]
    ensures i < ch.eff && ch.cow == Some(i) ==> Assembled(c, ch.eff, ch.cow, news, cowAt, i) == cowAt[0]
    ensures i < ch.eff && ch.cow != Some(i) ==>
              i < |c.blocks| && Assembled(c, ch.eff, ch.cow, news, cowAt, i) == c.blocks[i]
  {
    hide CeilDiv, ExtCount, BlocksOfChain, LenAt;
  }

  lemma AssembledApart(f: Format, policy: bool, c: FileChain, offset: nat, written: nat, size: nat, ch: Choice,
          news: seq<Lba>, cowAt: seq<Lba>, exts: seq<Lba>, blocks: seq<Lba>)
    requires f.payload > 0 && ch == Chosen(f, policy, c.size, offset, written, size)
    requires Furnished(f, c, ch, CeilDiv(size, f.payload), news, cowAt, exts) && |blocks| == CeilDiv(size, f.payload)
    requires forall i :: 0 <= i < |blocks| ==> blocks[i] == Assembled(c, ch.eff, ch.cow, news, cowAt, i)
    ensures NoRepeats(blocks)
    ensures forall i :: 0 <= i < |blocks| && (i >= ch.eff || ch.cow == Some(i)) ==>
              blocks[i] in news || blocks[i] in cowAt
    ensures forall x :: x in exts ==> x !in blocks
  {
    FurnishedFacts(f, c, ch, CeilDiv(size, f.payload), news, cowAt, exts);
    forall i | 0 <= i < |blocks|
      ensures (if i >= ch.eff || ch.cow == Some(i) then blocks[i] in news || blocks[i] in cowAt
                else i < |c.blocks| && blocks[i] == c.blocks[i])
      ensures blocks[i] !in exts
    {
      AssembledFrom(f, policy, c, offset, written, size, ch, news, cowAt, exts, i);
    }
    forall i, j | 0 <= i < j < |blocks|
      ensures blocks[i] != blocks[j]
    {
      AssembledFrom(f, policy, c, offset, written, size, ch, news, cowAt, exts, i);
      AssembledFrom(f, policy, c, offset, written, size, ch, news, cowAt, exts, j);
    }
  }

  /** Every block drawn is used. */
  lemma AllUsed(f: Format, policy: bool, c: FileChain, offset: nat, written: nat, size: nat, ch: Choice,
          news: seq<Lba>, cowAt: seq<Lba>, exts: seq<Lba>, blocks: seq<Lba>, x: Lba)
    requires f.payload > 0 && ch == Chosen(f, policy, c.size, offset, written, size)
    requires Furnished(f, c, ch, CeilDiv(size, f.payload), news, cowAt, exts) && |blocks| == CeilDiv(size, f.payload)
    requires forall i :: 0 <= i < |blocks| ==> blocks[i] == Assembled(c, ch.eff, ch.cow, news, cowAt, i)
    requires x in news || x in cowAt
    ensures x in blocks
  {
    hide CeilDiv, ExtCount, BlocksOfChain, LenAt, NoRepeats;
    if x in news {
      var i :| 0 <= i < |news| && news[i] == x;
      assert blocks[ch.eff + i] == x;
    } else {
      assert blocks[ch.cow.value] == cowAt[0];
    }
  }

  /** Where the extension blocks stay, so does what they list. */
  lemma TailStays(d: Disk, f: Format, policy: bool, c: FileChain, offset: nat, written: nat, size: nat, ch: Choice,
          blocks: seq<Lba>)
    requires f.payload > 0 && f.slots > 0 && Canonical(d, f, c)
              && ch == Chosen(f, policy, c.size, offset, written, size) && !ch.extDirty
    requires |blocks| == CeilDiv(size, f.payload)
    requires forall i :: 0 <= i < |blocks| && i < ch.eff && ch.cow != Some(i) ==>
              i < |c.blocks| && blocks[i] == c.blocks[i]
    ensures blocks[Min(f.slots, |blocks|)..] == c.blocks[Min(f.slots, |c.blocks|)..]
    ensures |c.extensions| == ExtCount(|blocks|, f.slots) && NoRepeats(c.extensions)
  {
    hide Canonical, NoRepeats, LenAt, CeilDiv, ExtCount;
    TailCount(d, f, c);
    ChainCounts(d, f, c);
    SameSides(f, policy, c, offset, written, size, ch, |blocks|);
    if |blocks| > f.slots { SameRest(blocks, c.blocks, f.slots); }
    SmallCount(|blocks|, |c.blocks|, f.slots);
  }

  /** Extension blocks that stay list as many blocks as they did, or there are none. */
  lemma SameSides(f: Format, policy: bool, c: FileChain, offset: nat, written: nat, size: nat, ch: Choice, n: nat)
    requires f.payload > 0 && |c.blocks| == CeilDiv(c.size, f.payload)
    requires f.slots > 0 && ch == Chosen(f, policy, c.size, offset, written, size) && !ch.extDirty
              && n == CeilDiv(size, f.payload)
    ensures ch.eff == |c.blocks| && (n == |c.blocks| || (n <= f.slots && |c.blocks| <= f.slots))
    ensures ch.cow.Some? ==> ch.cow.value < f.slots
  {
    hide CeilDiv, LenAt;
  }

  lemma SameRest(a: seq<Lba>, b: seq<Lba>, slots: nat)
    requires |a| == |b| > slots && forall i :: slots <= i < |a| ==> a[i] == b[i]
    ensures a[slots..] == b[slots..]
  {}

  lemma SmallCount(n: nat, k: nat, slots: nat)
    requires slots > 0 && (n == k || (n <= slots && k <= slots))
    ensures ExtCount(n, slots) == ExtCount(k, slots)
  {}

  lemma TailCount(d: Disk, f: Format, c: FileChain)
    requires f.payload > 0 && f.slots > 0 && Canonical(d, f, c)
    ensures |c.extensions| == ExtCount(|c.blocks|, f.slots) && NoRepeats(c.extensions)
  {
    LaidOutCount(d, f.slots, c.header, c.extensions, c.blocks[Min(f.slots, |c.blocks|)..]);
    ExtensionsApart(c.header, c.extensions);
    hide Walks, LaidOut, CeilDiv;
  }

  lemma PlanFits(d: Disk, f: Format, policy: bool, c: FileChain, s: Bytes, offset: nat, data: Bytes, size: nat,
          ch: Choice, news: seq<Lba>, cowAt: seq<Lba>, exts: seq<Lba>, blocks: seq<Lba>, own: set<Lba>)
    requires f.payload > 0 && Canonical(d, f, c) && |s| == c.size && (|s| <= size || data == [])
    requires ch == Chosen(f, policy, c.size, offset, |data|, size) && own == SetOf((news + cowAt) + exts)
    requires Furnished(f, c, ch, CeilDiv(size, f.payload), news, cowAt, exts) && |blocks| == CeilDiv(size, f.payload)
    requires forall i :: 0 <= i < |blocks| ==> blocks[i] == Assembled(c, ch.eff, ch.cow, news, cowAt, i)
    ensures Planned(f, c, s, Plan(Job(c, offset, data, size, ch.eff, ch.kept, ch.cow, blocks), if ch.extDirty then exts
              else c.extensions,
              ch.extDirty), own)
  {
    hide Canonical, CeilDiv, Assembled, NoRepeats, LenAt, ExtCount, JobOk, BlocksOfChain;
    var n := CeilDiv(size, f.payload);
    FurnishedFacts(f, c, ch, n, news, cowAt, exts);
    AssembledApart(f, policy, c, offset, |data|, size, ch, news, cowAt, exts, blocks);
    forall x | x in news || x in cowAt
      ensures x in blocks
    {
      AllUsed(f, policy, c, offset, |data|, size, ch, news, cowAt, exts, blocks, x);
    }
    forall i | 0 <= i < |blocks| && i < ch.eff && ch.cow != Some(i)
      ensures i < |c.blocks| && blocks[i] == c.blocks[i]
    {
      AssembledFrom(f, policy, c, offset, |data|, size, ch, news, cowAt, exts, i);
    }
    if !ch.extDirty { TailStays(d, f, policy, c, offset, |data|, size, ch, blocks); }
    PlannedJob(d, f, policy, c, s, offset, data, size, ch, blocks);
    var job := Job(c, offset, data, size, ch.eff, ch.kept, ch.cow, blocks);
    assert forall k: nat :: Untouchable(job, k) <==> k >= ch.eff || ch.cow == Some(k);
  }

  lemma PlannedJob(d: Disk, f: Format, policy: bool, c: FileChain, s: Bytes, offset: nat, data: Bytes, size: nat,
          ch: Choice, blocks: seq<Lba>)
    requires f.payload > 0 && Canonical(d, f, c) && |s| == c.size && (|s| <= size || data == [])
    requires ch == Chosen(f, policy, c.size, offset, |data|, size) && |blocks| == CeilDiv(size, f.payload)
    requires NoRepeats(blocks) && NoRepeats(c.blocks)
    requires forall i :: 0 <= i < |blocks| && i < ch.eff && ch.cow != Some(i) ==>
              i < |c.blocks| && blocks[i] == c.blocks[i]
    requires forall i :: 0 <= i < |blocks| && (i >= ch.eff || ch.cow == Some(i)) ==> blocks[i] !in BlocksOfChain(c)
    ensures JobOk(f, Job(c, offset, data, size, ch.eff, ch.kept, ch.cow, blocks), s)
  {
    ChainCounts(d, f, c);
    hide Canonical, CeilDiv, NoRepeats, LenAt, BlocksOfChain;
  }

  lemma ChainCounts(d: Disk, f: Format, c: FileChain)
    requires f.payload > 0 && Canonical(d, f, c)
    ensures |c.blocks| == CeilDiv(c.size, f.payload)
  {}

  /** The blocks drawn: for new places, for the replacement, for extension blocks. */
  type Drafted = (seq<Lba>, seq<Lba>, seq<Lba>)

  ghost predicate DrawnApart(m: Mutator, free: set<Lba>, drawn: Drafted)
    reads m`live, m`shape, m`base, m`origin, m`busy, m.vol.src, m.alloc`words
  {
    var all := (drawn.0 + drawn.1) + drawn.2;
    NoRepeats(all) && SetOf(all) <= free && m.alloc.Free() == free - SetOf(all) && forall x: Lba :: x in SetOf(all) ==>
        m.Mine(x)
  }

  /** A whole file's blocks, data and extension blocks in the order they are fetched; in
      runs where the policy says so. */
  method DrawPlaces(m: Mutator, full: bool, hint: nat, n: nat) returns (r: Result<Drafted, MutateError>)
    requires m.Valid() && m.vol.f.slots > 0
    modifies m.vol.src, m.alloc
    ensures m.Valid() && m.Entries() == old(m.Entries()) && |m.vol.src.blocks| == |old(m.vol.src.blocks)|
    ensures forall x: Lba :: x < |m.vol.src.blocks| && !old(m.vol.src.blocks)[x].Bitmap? ==>
              m.vol.src.blocks[x] == old(m.vol.src.blocks)[x]
    ensures forall x: Lba :: old(m.Mine(x)) ==> m.Mine(x)
    ensures Carries(old(m.vol.src.blocks), m.shape, m.vol.src.blocks, m.shape)
    ensures r.Ok? <==> n + ExtCount(n, m.vol.f.slots) <= |old(m.alloc.Free())|
    ensures r.Err? ==> m.alloc.Free() == {}
    ensures r.Ok? ==> |r.value.0| == n && r.value.1 == [] && |r.value.2| == ExtCount(n, m.vol.f.slots)
    ensures r.Ok? ==> DrawnApart(m, old(m.alloc.Free()), r.value)
    ensures r.Ok? ==> |m.alloc.Free()| + n + ExtCount(n, m.vol.f.slots) == |old(m.alloc.Free())|
    ensures r.Ok? ==> exists out, all :: InFetchOrder(out, m.vol.f.slots) && Dealt(out, all, r.value.0, r.value.2)
  {
    hide Mutator.Valid, ExtCount, NoRepeats, Tree, Mutator.Mine, InFetchOrder, Dealt, SetOf, Carries, InOneRun,
      HasStretch, DrawnApart;
    var places := InterleavedPositions(n, ExtCount(n, m.vol.f.slots), m.vol.f.slots);
    var drawn := Draw(m, if full then RunsOnward else OneByOne, |places|, hint);
    if drawn.Err? {
      return Err(drawn.error);
    }
    var news, exts := Deal(places, drawn.value);
    DealtSizes(places, drawn.value, news, exts);
    FewerLeft(old(m.alloc.Free()), drawn.value, m.alloc.Free());
    DealtApart(m, old(m.alloc.Free()), drawn.value, news, exts);
    r := Ok((news, [], exts));
  }

  lemma DealtApart(m: Mutator, free: set<Lba>, list: seq<Lba>, news: seq<Lba>, exts: seq<Lba>)
    requires NoRepeats(list) && SetOf(list) <= free && m.alloc.Free() == free - SetOf(list)
              && forall x: Lba :: x in list ==> m.Mine(x)
    requires NoRepeats(news + exts) && SetOf(news + exts) == SetOf(list)
    ensures DrawnApart(m, free, (news, [], exts))
  {
    hide NoRepeats, Mutator.Mine, SetOf;
    assert (news + []) + exts == news + exts;
    InSetOf(list);
  }

  /** Blocks after the file's last one: those it grows by, the replacement, the extension blocks. */
  method DrawMore(m: Mutator, c: FileChain, ch: Choice, n: nat) returns (r: Result<Drafted, MutateError>)
    requires m.Valid() && m.vol.f.slots > 0
    modifies m.vol.src, m.alloc
    ensures m.Valid() && m.Entries() == old(m.Entries()) && |m.vol.src.blocks| == |old(m.vol.src.blocks)|
    ensures forall x: Lba :: x < |m.vol.src.blocks| && !old(m.vol.src.blocks)[x].Bitmap? ==>
              m.vol.src.blocks[x] == old(m.vol.src.blocks)[x]
    ensures r.Ok? <==> Needed(m.vol.f, ch, n) <= |old(m.alloc.Free())|
    ensures r.Err? ==> m.alloc.Free() == {}
    ensures r.Ok? ==>
              |r.value.0| == (if n > ch.eff then n - ch.eff else 0) && |r.value.1| == (if ch.cow.Some? then 1 else 0)
    ensures r.Ok? ==> |r.value.2| == (if ch.extDirty then ExtCount(n, m.vol.f.slots) else 0)
    ensures r.Ok? ==> DrawnApart(m, old(m.alloc.Free()), r.value)
  {
    hide Mutator.Valid, ExtCount, NoRepeats, Tree, Mutator.Mine, SetOf;
    var more := if n > ch.eff then n - ch.eff else 0;
    var one := if ch.cow.Some? then 1 else 0;
    var rest := if ch.extDirty then ExtCount(n, m.vol.f.slots) else 0;
    var hint := if c.blocks == [] then c.header else c.blocks[|c.blocks| - 1];
    var drawn := Draw(m, OneByOne, more + one + rest, hint);
    if drawn.Err? {
      return Err(drawn.error);
    }
    var news, cowAt, exts := drawn.value[..more], drawn.value[more..more + one], drawn.value[more + one..];
    assert drawn.value == (news + cowAt) + exts;
    InSetOf(drawn.value);
    r := Ok((news, cowAt, exts));
  }

  /** The blocks a choice needs: all of them anew, or those after the file's last one. */
  method DrawFor(m: Mutator, c: FileChain, ch: Choice, n: nat) returns (r: Result<Drafted, MutateError>)
    requires m.Valid() && m.vol.f.slots > 0 && (ch.full ==> ch.eff == 0 && ch.cow.None? && ch.extDirty)
    modifies m.vol.src, m.alloc
    ensures m.Valid() && m.Entries() == old(m.Entries()) && |m.vol.src.blocks| == |old(m.vol.src.blocks)|
    ensures forall x: Lba :: x < |m.vol.src.blocks| && !old(m.vol.src.blocks)[x].Bitmap? ==>
              m.vol.src.blocks[x] == old(m.vol.src.blocks)[x]
    ensures r.Ok? <==> Needed(m.vol.f, ch, n) <= |old(m.alloc.Free())|
    ensures r.Err? ==> m.alloc.Free() == {}
    ensures r.Ok? ==>
              |r.value.0| == (if n > ch.eff then n - ch.eff else 0) && |r.value.1| == (if ch.cow.Some? then 1 else 0)
    ensures r.Ok? ==> |r.value.2| == (if ch.extDirty then ExtCount(n, m.vol.f.slots) else 0)
    ensures r.Ok? ==> DrawnApart(m, old(m.alloc.Free()), r.value)
  {
    hide Mutator.Valid, ExtCount, Tree, DrawnApart, Carries, InFetchOrder, Dealt;
    if ch.full {
      r := DrawPlaces(m, true, c.header, n);
    } else {
      r := DrawMore(m, c, ch, n);
    }
  }

  lemma InSetOf(s: seq<Lba>)
    ensures forall x: Lba :: x in SetOf(s) ==> x in s
  {}

  /** Draw every block an edit needs, then one flush: after it every number is durable. */
  method Draft(m: Mutator, c: FileChain, offset: nat, data: Bytes, size: nat, ghost s: Bytes)
    returns (r: Result<Plan, MutateError>, ghost own: set<Lba>)
    requires m.Valid() && m.vol.f.payload > 0 && m.vol.f.slots > 0
    requires Canonical(m.vol.src.blocks, m.vol.f, c) && m.shape.Owns(c.header) && |s| == c.size
              && (|s| <= size || data == [])
    modifies m.vol.src, m.alloc
    ensures m.Valid() && m.Entries() == old(m.Entries()) && |m.vol.src.blocks| == |old(m.vol.src.blocks)|
    ensures forall x: Lba :: x < |m.vol.src.blocks| && !old(m.vol.src.blocks)[x].Bitmap? ==>
              m.vol.src.blocks[x] == old(m.vol.src.blocks)[x]
    ensures r.Ok? <==> Draws(m.vol.f, m.layoutPolicy, c.size, offset, |data|, size) <= |old(m.alloc.Free())|
    ensures r.Err? ==> m.alloc.Free() == {}
    ensures r.Ok? ==>
              r.value.job.chain == c && Planned(m.vol.f, c, s, r.value, own) && r.value.job.offset == offset
              && r.value.job.data == data && r.value.job.size == size
    ensures r.Ok? ==> var ch := Chosen(m.vol.f, m.layoutPolicy, c.size, offset, |data|, size);
                      r.value.job.eff == ch.eff && r.value.job.kept == ch.kept && r.value.job.cow == ch.cow
                          && r.value.extDirty == ch.extDirty
    ensures r.Ok? ==>
              own <= old(m.alloc.Free()) && m.alloc.Free() == old(m.alloc.Free()) - own
              && forall x: Lba :: x in own ==> m.Mine(x)
  {
    hide Mutator.Valid, Planned, Canonical, CeilDiv, ExtCount, NoRepeats, Chosen, Tree, Assembled, Furnished,
      Mutator.Mine, InFetchOrder,
      Dealt, SetOf, Needed;
    own := {};
    var f := m.vol.f;
    ghost var d, free := m.vol.src.blocks, m.alloc.Free();
    var ch := Chosen(f, m.layoutPolicy, c.size, offset, |data|, size);
    var n := CeilDiv(size, f.payload);
    FullDraws(f, m.layoutPolicy, c, offset, |data|, size, ch);
    ChainCounts(d, f, c);
    NotTheOldFile(m, c);
    var drawn := DrawFor(m, c, ch, n);
    if drawn.Err? {
      return Err(drawn.error), {};
    }
    var (news, cowAt, exts) := drawn.value;
    own := SetOf((news + cowAt) + exts);
    var blocks := Assemble(c, ch.eff, ch.cow, news, cowAt, n);
    FurnishedNow(f, c, ch, n, news, cowAt, exts, own, free);
    PlanFits(d, f, m.layoutPolicy, c, s, offset, data, size, ch, news, cowAt, exts, blocks, own);
    r := Ok(Plan(Job(c, offset, data, size, ch.eff, ch.kept, ch.cow, blocks), if ch.extDirty then exts
        else c.extensions, ch.extDirty));
  }

  /** A file laid out anew keeps nothing and replaces nothing. */
  lemma FullDraws(f: Format, policy: bool, c: FileChain, offset: nat, written: nat, size: nat, ch: Choice)
    requires f.payload > 0 && ch == Chosen(f, policy, c.size, offset, written, size)
    ensures ch.full ==> ch.eff == 0 && ch.cow.None? && ch.extDirty
  {
    hide CeilDiv;
  }

  /** What the old file uses is not free. */
  lemma NotTheOldFile(m: Mutator, c: FileChain)
    requires m.Valid() && m.vol.f.payload > 0 && Canonical(m.vol.src.blocks, m.vol.f, c) && m.shape.Owns(c.header)
    ensures NoRepeats(c.blocks) && forall x :: x in m.alloc.Free() ==> x !in BlocksOfChain(c)
  {
    hide Mutator.Ready, Named, Rooted, IsChain, Grown, LaidOut;
    m.InOrderNow();
    ChainIsOwned(m.vol.src.blocks, m.vol.f, m.shape, c);
    forall x | x in m.alloc.Free()
      ensures x !in BlocksOfChain(c)
    {
      forall i | 0 <= i < |c.extensions|
        ensures c.extensions[i] != x
      {
        assert m.shape.Owns(c.extensions[i]);
      }
    }
  }

  lemma DealtSizes(places: seq<bool>, all: seq<Lba>, news: seq<Lba>, exts: seq<Lba>)
    requires Dealt(places, all, news, exts)
    ensures |exts| == ExtsIn(places) && |news| == |places| - ExtsIn(places)
  {}

  lemma FurnishedNow(f: Format, c: FileChain, ch: Choice, n: nat, news: seq<Lba>, cowAt: seq<Lba>, exts: seq<Lba>,
          own: set<Lba>, free: set<Lba>)
    requires f.slots > 0 && f.payload > 0 && |c.blocks| == CeilDiv(c.size, f.payload)
    requires |news| == (if n > ch.eff then n - ch.eff else 0) && |cowAt| == (if ch.cow.Some? then 1 else 0)
    requires |exts| == (if ch.extDirty then ExtCount(n, f.slots) else 0)
    requires NoRepeats((news + cowAt) + exts) && NoRepeats(c.blocks) && own == SetOf((news + cowAt) + exts)
    requires own <= free && forall x :: x in free ==> x !in BlocksOfChain(c)
    ensures Furnished(f, c, ch, n, news, cowAt, exts)
  {
    hide NoRepeats, ExtCount, CeilDiv;
    forall x | x in news || x in cowAt || x in exts
      ensures x !in BlocksOfChain(c)
    {
      assert x in SetOf((news + cowAt) + exts);
    }
  }

  // ---- What an edit gives back ---------------------------------------------------------------------

  /** The data blocks and the extension blocks of a file. */
  function Parts(c: FileChain): set<Lba> {
    SetOf(c.blocks) + SetOf(c.extensions)
  }

  function NewChain(p: Plan): FileChain {
    FileChain(p.job.chain.header, p.job.size, p.job.blocks, p.exts)
  }

  /** What of the old file the new one has no use for. */
  function Freed(p: Plan): seq<Lba> {
    var c := p.job.chain;
    (if p.job.kept <= |c.blocks| then c.blocks[p.job.kept..] else []) +
    (if p.job.cow.Some? then [Nth(c.blocks, p.job.cow.value)] else []) +
    (if p.extDirty then c.extensions else [])
  }

  lemma FreedIs(f: Format, s: Bytes, p: Plan, own: set<Lba>)
    requires Planned(f, p.job.chain, s, p, own) && NoRepeats(p.job.chain.extensions)
    requires forall x :: x in p.job.chain.blocks ==> x !in p.job.chain.extensions
    ensures NoRepeats(Freed(p)) && SetOf(Freed(p)) == Parts(p.job.chain) - Parts(NewChain(p))
    ensures own == Parts(NewChain(p)) - Parts(p.job.chain)
  {
    var c, j := p.job.chain, p.job;
    hide ExtCount, CeilDiv, LenAt, Untouchable;
    forall x: Lba
      ensures x in Freed(p) <==> x in Parts(c) && x !in Parts(NewChain(p))
    {
      FreedMember(f, s, p, own, x);
    }
    FreedOnce(f, s, p, own);
    forall x: Lba
      ensures x in own <==> x in Parts(NewChain(p)) && x !in Parts(c)
    {
      OwnMember(f, s, p, own, x);
    }
  }

  lemma OwnMember(f: Format, s: Bytes, p: Plan, own: set<Lba>, x: Lba)
    requires Planned(f, p.job.chain, s, p, own)
    ensures x in own <==> x in Parts(NewChain(p)) && x !in Parts(p.job.chain)
  {
    hide ExtCount, CeilDiv, LenAt;
    if x in p.job.blocks {
      var k :| 0 <= k < |p.job.blocks| && p.job.blocks[k] == x;
      if !Untouchable(p.job, k) { assert x == p.job.chain.blocks[k]; }
    }
  }

  lemma FreedMember(f: Format, s: Bytes, p: Plan, own: set<Lba>, x: Lba)
    requires Planned(f, p.job.chain, s, p, own)
    requires forall x :: x in p.job.chain.blocks ==> x !in p.job.chain.extensions
    ensures x in Freed(p) <==> x in Parts(p.job.chain) && x !in Parts(NewChain(p))
  {
    var c, j := p.job.chain, p.job;
    if x in c.blocks {
      var i :| 0 <= i < |c.blocks| && c.blocks[i] == x;
      StaysInNew(f, s, p, own, i);
      GoesOrNot(f, s, p, own, i);
    } else {
      if x in j.blocks { var k :| 0 <= k < |j.blocks| && j.blocks[k] == x; StillOld(f, s, p, own, k); }
      if j.cow.Some? { CowIsThere(f, j, s); }
      hide JobOk, NoRepeats, Untouchable, ExtCount;
      OwnMember(f, s, p, own, x);
    }
  }

  lemma CowIsThere(f: Format, j: Job, s: Bytes)
    requires JobOk(f, j, s) && j.cow.Some?
    ensures j.cow.value < |j.chain.blocks| && j.cow.value == j.kept - 1 && j.cow.value < |j.blocks|
  {
    hide CeilDiv, LenAt;
  }

  lemma StillOld(f: Format, s: Bytes, p: Plan, own: set<Lba>, k: nat)
    requires Planned(f, p.job.chain, s, p, own) && k < |p.job.blocks|
    ensures p.job.blocks[k] in own || (k < |p.job.chain.blocks| && p.job.blocks[k] == p.job.chain.blocks[k])
  {
    hide CeilDiv, LenAt, ExtCount;
  }

  /** Block `i` of the old file is block `i` of the new one, or none of it. */
  lemma StaysInNew(f: Format, s: Bytes, p: Plan, own: set<Lba>, i: nat)
    requires Planned(f, p.job.chain, s, p, own) && i < |p.job.chain.blocks|
    requires forall x :: x in p.job.chain.blocks ==> x !in p.job.chain.extensions
    ensures p.job.chain.blocks[i] in Parts(NewChain(p)) <==> i < p.job.kept && p.job.cow != Some(i)
  {
    var c, j := p.job.chain, p.job;
    var x := c.blocks[i];
    assert x in c.blocks && x !in own && x in BlocksOfChain(c);
    hide CeilDiv, LenAt, ExtCount;
    if x in j.blocks {
      var k :| 0 <= k < |j.blocks| && j.blocks[k] == x;
      SameIndex(f, s, p, own, i, k);
    }
    if i < j.kept && j.cow != Some(i) {
      assert !Untouchable(j, i) && j.blocks[i] == x;
    }
  }

  lemma SameIndex(f: Format, s: Bytes, p: Plan, own: set<Lba>, i: nat, k: nat)
    requires Planned(f, p.job.chain, s, p, own) && i < |p.job.chain.blocks| && k < |p.job.blocks|
    requires p.job.blocks[k] == p.job.chain.blocks[i] && p.job.blocks[k] !in own
    ensures i == k && i < p.job.kept && p.job.cow != Some(i)
  {
    hide CeilDiv, LenAt, ExtCount, BlocksOfChain;
    KeptComesFirst(f, p.job, s, k);
  }

  lemma GoesOrNot(f: Format, s: Bytes, p: Plan, own: set<Lba>, i: nat)
    requires Planned(f, p.job.chain, s, p, own) && i < |p.job.chain.blocks|
    requires forall x :: x in p.job.chain.blocks ==> x !in p.job.chain.extensions
    ensures p.job.chain.blocks[i] in Freed(p) <==> i >= p.job.kept || p.job.cow == Some(i)
  {
    var c, j := p.job.chain, p.job;
    var x := c.blocks[i];
    if j.cow.Some? { CowIsThere(f, j, s); }
    JobFacts(f, j, s);
    TailMember(c.blocks, j.kept, i);
    hide Planned, JobOk;
    assert x in c.blocks;
    if j.cow.Some? { OnlyOnce(c.blocks, i, j.cow.value); }
    hide NoRepeats;
  }

  lemma TailMember(blocks: seq<Lba>, kept: nat, i: nat)
    requires NoRepeats(blocks) && i < |blocks|
    ensures blocks[i] in (if kept <= |blocks| then blocks[kept..] else []) <==> i >= kept
  {
    if kept <= i { assert blocks[kept..][i - kept] == blocks[i]; }
    if kept <= |blocks| && blocks[i] in blocks[kept..] {
      var k :| 0 <= k < |blocks[kept..]| && blocks[kept..][k] == blocks[i];
      OnlyOnce(blocks, i, kept + k);
    }
  }

  lemma OnlyOnce(s: seq<Lba>, i: nat, k: nat)
    requires NoRepeats(s) && i < |s| && k < |s|
    ensures s[i] == s[k] <==> i == k
  {}

  lemma FreedOnce(f: Format, s: Bytes, p: Plan, own: set<Lba>)
    requires Planned(f, p.job.chain, s, p, own) && NoRepeats(p.job.chain.extensions)
    requires forall x :: x in p.job.chain.blocks ==> x !in p.job.chain.extensions
    ensures NoRepeats(Freed(p))
  {
    hide CeilDiv, LenAt, ExtCount, NoRepeats;
    var c, j := p.job.chain, p.job;
    if j.cow.Some? { CowIsThere(f, j, s); }
    JobFacts(f, j, s);
    var a := if j.kept <= |c.blocks| then c.blocks[j.kept..] else [];
    var b := if j.cow.Some? then [Nth(c.blocks, j.cow.value)] else [];
    assert NoRepeats(c.blocks);
    hide JobOk, Planned, CeilDiv, LenAt, ExtCount;
    TailAndCow(c.blocks, j.kept, j.cow);
    if p.extDirty { Apart(a + b, c.extensions); }
    assert (a + b) + [] == a + b;
  }

  /** What is cut off a file's end and the block replaced before it. */
  lemma TailAndCow(blocks: seq<Lba>, kept: nat, cow: Option<nat>)
    requires NoRepeats(blocks) && (cow.Some? ==> cow.value < |blocks| && cow.value < kept)
    ensures var a, b := if kept <= |blocks| then blocks[kept..] else [], if cow.Some? then [Nth(blocks, cow.value)]
              else [];
            NoRepeats(a + b) && forall x :: x in a + b ==> x in blocks
  {
    var a := if kept <= |blocks| then blocks[kept..] else [];
    assert forall i :: 0 <= i < |a| ==> a[i] == blocks[kept + i];
  }
}
