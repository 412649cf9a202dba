/**
 A file streamed onto a volume being filled: its contents come a piece at a time, as much as
 the caller has, and are never held for longer than two blocks; extension blocks are begun
 where a reader will want them and written once their successor is known.
 */
module Streaming {
  import opened Words
  import opened Disk
  import opened Directories
  import opened Reader
  import opened Chains
  import opened Passes
  import opened Drafting
  import opened Editing
  import opened Survival
  import opened Edits
  import opened Births
  import opened Populating

  /** Where the contents come from. Each call gives as much as it cares to, `pieces` says how
      much, but something as long as there is something. */
  class Source {
    var rest: Bytes
    var pieces: seq<nat>

    constructor (rest: Bytes, pieces: seq<nat>)
      ensures this.rest == rest && this.pieces == pieces
    {
      this.rest, this.pieces := rest, pieces;
    }

    method Give(room: nat) returns (piece: Bytes)
      requires room > 0
      modifies this
      ensures |piece| <= room && old(rest) == piece + rest && (piece == [] ==> old(rest) == [])
    {
      var most := if pieces == [] then room else if pieces[0] == 0 then 1 else Min(pieces[0], room);
      if pieces != [] {
        pieces := pieces[1..];
      }
      piece := rest[..Min(most, |rest|)];
      rest := rest[|piece|..];
    }
  }

  /** Fill a buffer: short pieces are topped up until it is full or nothing more comes. */
  method Fill(src: Source, room: nat) returns (buf: Bytes)
    modifies src
    ensures buf == old(src.rest)[..Min(room, |old(src.rest)|)] && src.rest == old(src.rest)[|buf|..]
  {
    buf := [];
    while |buf| < room
      invariant |buf| <= room && old(src.rest) == buf + src.rest
    {
      var piece := src.Give(room - |buf|);
      if piece == [] {
        break;
      }
      buf := buf + piece;
    }
  }

  // ---- Where a stream stands ---------------------------------------------------------------------------

  /** `k` blocks full of the file have come, the last one perhaps not full. */
  ghost predicate Come(f: Format, whole: Bytes, k: nat, total: nat) {
    total == Min(k * f.payload, |whole|) && (k > 0 ==> (k - 1) * f.payload < |whole|)
  }

  /** The table being filled: the header's own, or that of the last extension block. */
  ghost predicate Tabled(f: Format, blocks: seq<Lba>, exts: seq<Lba>, table: seq<Lba>, first: Lba,
          ext: Option<(Lba, seq<Lba>)>, inTable: nat) {
    var start := |exts| * f.slots;
    && start <= |blocks| && inTable == |blocks| - start <= f.slots
    && table == blocks[..Min(f.slots, |blocks|)] && first == First(exts)
    && ext == if exts == [] then None else Some((exts[|exts| - 1], blocks[start..]))
  }

  /** The extension blocks before the last one are written. */
  ghost predicate Closed(e: Disk, f: Format, h: Lba, blocks: seq<Lba>, exts: seq<Lba>) {
    forall j :: 0 <= j < |exts| - 1 ==> ExtAt(e, f.slots, h, blocks, exts, j)
  }

  /** The data block that waits for its successor. */
  ghost predicate Pending(f: Format, whole: Bytes, blocks: seq<Lba>, pending: Option<(Lba, nat)>, held: Bytes) {
    if blocks == [] then pending == None
    else pending == Some((blocks[|blocks| - 1], |blocks| - 1)) && held == Chunk(whole, f.payload, |blocks| - 1)
  }

  /** What has been handed out for the file, and the rest of the disk. */
  ghost predicate OnlyNews(d: Disk, e: Disk, news: seq<Lba>, blocks: seq<Lba>, exts: seq<Lba>) {
    && |e| == |d| && |news| == |blocks| + |exts| && NoRepeats(blocks + exts)
    && (forall x :: x in news <==> x in blocks || x in exts)
    && forall x: Lba :: x in news ==> 0 < x < |e|
  }

  ghost predicate Elsewhere(d: Disk, e: Disk, news: seq<Lba>) {
    |e| == |d| && forall x: Lba :: x !in news && x < |d| ==> e[x] == d[x]
  }

  lemma OneFull(f: Format, whole: Bytes, k: nat, total: nat, buf: Bytes)
    requires f.payload > 0 && Come(f, whole, k, total) && total <= |whole|
    requires buf == whole[total..][..Min(f.payload, |whole| - total)] && buf != []
    ensures Come(f, whole, k + 1, total + |buf|) && buf == Chunk(whole, f.payload, k) && total == k * f.payload
  {
    assert (k + 1) * f.payload == k * f.payload + f.payload;
  }

  lemma AllCome(f: Format, whole: Bytes, k: nat, total: nat)
    requires f.payload > 0 && Come(f, whole, k, total) && total == |whole|
    ensures k == CeilDiv(|whole|, f.payload)
  {
    if k > 0 { CeilDivIs(|whole|, f.payload, k); }
  }

  lemma ExtsAre(slots: nat, k: nat, n: nat)
    requires slots > 0 && n * slots <= k <= (n + 1) * slots && (k > 0 ==> n * slots < k)
    ensures n == ExtCount(k, slots)
  {
    assert (n + 1) * slots == n * slots + slots;
    if n > 0 {
      assert n * slots == (n - 1) * slots + slots;
      MulMonotone(1, n, slots);
      CeilDivIs(k - slots, slots, n);
    } else if k == 0 {
      assert ExtCount(0, slots) == 0;
    }
  }

  /** A file that goes on needs more than it has. */
  lemma MoreNeeded(f: Format, whole: Bytes, k: nat, n: nat)
    requires f.payload > 0 && f.slots > 0 && k * f.payload < |whole| && n <= ExtCount(k + 1, f.slots)
    ensures k + n < Footprint(f, |whole|)
  {
    var blocks := CeilDiv(|whole|, f.payload);
    if blocks <= k { MulMonotone(blocks, k, f.payload); }
    ExtsGrow(k + 1, blocks, f.slots);
  }

  lemma ExtsGrow(a: nat, b: nat, slots: nat)
    requires slots > 0 && a <= b
    ensures ExtCount(a, slots) <= ExtCount(b, slots)
  {
    if a > slots { CeilDivGrows(a - slots, b - slots, slots); }
  }

  // ---- One step ------------------------------------------------------------------------------------------

  lemma FullGroup(blocks: seq<Lba>, slots: nat, j: nat, x: Lba)
    requires slots > 0 && (j + 2) * slots <= |blocks|
    ensures Listed(blocks + [x], slots, j) == Listed(blocks, slots, j) == blocks[(j + 1) * slots..(j + 2) * slots]
  {
    assert (j + 2) * slots == (j + 1) * slots + slots;
    var a, b := Rest(blocks, slots, j), Rest(blocks + [x], slots, j);
    assert b == a + [x];
    assert a[..slots] == blocks[(j + 1) * slots..(j + 2) * slots];
  }

  /** The last extension block is written once there is a next one. */
  lemma ClosesOne(e: Disk, f: Format, h: Lba, blocks: seq<Lba>, exts: seq<Lba>, x: Lba)
    requires f.slots > 0 && Closed(e, f, h, blocks, exts) && exts != [] && NoRepeats(exts) && 0 < exts[|exts| - 1] < |e|
    requires |blocks| == (|exts| + 1) * f.slots
    ensures var last, start := exts[|exts| - 1], |exts| * f.slots;
            start <= |blocks| && Closed(e[last := List(last, h, blocks[start..], x)], f, h, blocks, exts + [x])
  {
    hide Listed;
    var n := |exts| - 1;
    var last, all := exts[n], exts + [x];
    assert |exts| * f.slots + f.slots == |blocks|;
    var c := e[last := List(last, h, blocks[|exts| * f.slots..], x)];
    FullGroup(blocks, f.slots, n, x);
    forall j | 0 <= j < |all| - 1
      ensures ExtAt(c, f.slots, h, blocks, all, j)
    {
      if j < n { assert ExtAt(e, f.slots, h, blocks, exts, j) && exts[j] != last; }
    }
  }

  /** One more data block changes nothing of the ones that are closed. */
  lemma StayClosed(e: Disk, f: Format, h: Lba, blocks: seq<Lba>, exts: seq<Lba>, x: Lba, y: Lba, b: Block)
    requires f.slots > 0 && Closed(e, f, h, blocks, exts) && |exts| * f.slots <= |blocks| && y < |e| && y !in exts
    ensures Closed(e[y := b], f, h, blocks + [x], exts) && Closed(e, f, h, blocks + [x], exts)
              && Closed(e[y := b], f, h, blocks, exts)
  {
    hide Listed;
    var c, more := e[y := b], blocks + [x];
    forall j | 0 <= j < |exts| - 1
      ensures ExtAt(c, f.slots, h, more, exts, j) && ExtAt(e, f.slots, h, more, exts, j)
                && ExtAt(c, f.slots, h, blocks, exts, j)
    {
      assert ExtAt(e, f.slots, h, blocks, exts, j);
      MulMonotone(j + 2, |exts|, f.slots);
      FullGroup(blocks, f.slots, j, x);
    }
    assert Closed(c, f, h, more, exts) && Closed(c, f, h, blocks, exts);
  }

  lemma StillPoured(e: Disk, f: Format, h: Lba, whole: Bytes, blocks: seq<Lba>, n: nat, x: Lba, y: Lba, b: Block)
    requires Poured(e, f, h, whole, blocks, n) && y < |e| && y !in blocks
    ensures Poured(e[y := b], f, h, whole, blocks, n) && Poured(e, f, h, whole, blocks + [x], n)
  {
    hide Chunk;
    forall k | 0 <= k < n
      ensures Delivers(e[y := b], f.ffs, h, k, blocks[k], Chunk(whole, f.payload, k))
      ensures Delivers(e, f.ffs, h, k, (blocks + [x])[k], Chunk(whole, f.payload, k))
    {
      assert Delivers(e, f.ffs, h, k, blocks[k], Chunk(whole, f.payload, k));
    }
  }

  lemma NewsMore(d: Disk, e: Disk, news: seq<Lba>, blocks: seq<Lba>, exts: seq<Lba>, x: Lba)
    requires OnlyNews(d, e, news, blocks, exts) && x !in news && 0 < x < |e|
    ensures OnlyNews(d, e, news + [x], blocks + [x], exts) && OnlyNews(d, e, news + [x], blocks, exts + [x])
  {
    var all := blocks + exts;
    assert forall i :: 0 <= i < |blocks| ==> all[i] == blocks[i];
    assert forall i :: 0 <= i < |exts| ==> all[|blocks| + i] == exts[i];
  }

  // ---- The stream ----------------------------------------------------------------------------------------

  /** What is remembered of the file while it comes: the header's table and its pointer, the
      extension block being filled, and the data block that waits. */
  datatype Progress = Progress(table: seq<Lba>, first: Lba, ext: Option<(Lba, seq<Lba>)>, inTable: nat,
          pending: Option<(Lba, nat)>, held: Bytes)

  ghost predicate UnderWay(d: Disk, e: Disk, f: Format, h: Lba, whole: Bytes, blocks: seq<Lba>, exts: seq<Lba>,
          news: seq<Lba>, s: Progress)
    requires f.slots > 0
  {
    && Tabled(f, blocks, exts, s.table, s.first, s.ext, s.inTable) && Pending(f, whole, blocks, s.pending, s.held)
    && Closed(e, f, h, blocks, exts) && Poured(e, f, h, whole, blocks, if blocks == [] then 0 else |blocks| - 1)
    && OnlyNews(d, e, news, blocks, exts) && Elsewhere(d, e, news)
  }

  /** The blocks in `news` have been handed out since `was`, when `left` were left. */
  ghost predicate Handing(p: Populator, was: seq<Lba>, news: seq<Lba>, left: nat, size: nat)
    reads p
  {
    && p.Valid() && 0 < p.reserved && p.count <= size
    && p.handed == was + news && p.Left() + |news| == left
  }

  lemma NewOne(p: Populator, was: seq<Lba>, news: seq<Lba>, x: Lba)
    requires x !in was + news
    ensures x !in news && x !in was && was + news + [x] == was + (news + [x])
  {}

  /** Writing the last extension block leaves the data alone. */
  lemma LastIsElsewhere(e: Disk, f: Format, h: Lba, whole: Bytes, blocks: seq<Lba>, exts: seq<Lba>, b: Block)
    requires exts != [] && NoRepeats(blocks + exts) && exts[|exts| - 1] < |e|
    ensures exts[|exts| - 1] !in blocks && NoRepeats(exts)
    ensures forall n :: Poured(e, f, h, whole, blocks, n) ==> Poured(e[exts[|exts| - 1] := b], f, h, whole, blocks, n)
  {
    var all, last := blocks + exts, exts[|exts| - 1];
    assert forall i :: 0 <= i < |blocks| ==> all[i] == blocks[i];
    assert forall i :: 0 <= i < |exts| ==> all[|blocks| + i] == exts[i];
    forall n | Poured(e, f, h, whole, blocks, n)
      ensures Poured(e[last := b], f, h, whole, blocks, n)
    {
      StillPoured(e, f, h, whole, blocks, n, 0, last, b);
    }
  }

  /** The disk, and what is remembered, once `x` is the next extension block. */
  function ClosedDisk(e: Disk, h: Lba, s: Progress, x: Lba): Disk {
    match s.ext
    case None => e
    case Some((last, pointers)) => if last < |e| then e[last := List(last, h, pointers, x)] else e
  }

  function WithExt(s: Progress, x: Lba): Progress {
    s.(first := if s.ext.None? then x else s.first, ext := Some((x, [])), inTable := 0)
  }

  lemma ExtsInside(d: Disk, e: Disk, news: seq<Lba>, blocks: seq<Lba>, exts: seq<Lba>)
    requires OnlyNews(d, e, news, blocks, exts)
    ensures NoRepeats(exts) && NoRepeats(blocks) && (forall x: Lba :: x in exts ==> 0 < x < |e| && x !in blocks)
    ensures forall x: Lba :: x in blocks ==> 0 < x < |e| && x !in exts
    ensures (exts != [] ==> exts[|exts| - 1] in exts) && (blocks != [] ==> blocks[|blocks| - 1] in blocks)
  {
    var all := blocks + exts;
    assert forall i :: 0 <= i < |blocks| ==> all[i] == blocks[i];
    assert forall i :: 0 <= i < |exts| ==> all[|blocks| + i] == exts[i];
  }

  lemma ExtBegun(d: Disk, e: Disk, f: Format, h: Lba, whole: Bytes, blocks: seq<Lba>, exts: seq<Lba>, news: seq<Lba>,
          s: Progress, x: Lba)
    requires f.slots > 0 && s.inTable == f.slots && UnderWay(d, e, f, h, whole, blocks, exts, news, s) && x !in news
              && 0 < x < |e|
    ensures UnderWay(d, ClosedDisk(e, h, s, x), f, h, whole, blocks, exts + [x], news + [x], WithExt(s, x))
  {
    hide Listed, Chunk, Poured, ExtAt;
    ExtsInside(d, e, news, blocks, exts);
    NewsMore(d, e, news, blocks, exts, x);
    assert (|exts| + 1) * f.slots == |exts| * f.slots + f.slots == |blocks|;
    var c := ClosedDisk(e, h, s, x);
    if exts != [] {
      ClosesOne(e, f, h, blocks, exts, x);
      LastIsElsewhere(e, f, h, whole, blocks, exts, List(exts[|exts| - 1], h, blocks[|exts| * f.slots..], x));
    }
    assert blocks[|blocks|..] == [] && First(exts + [x]) == if exts == [] then x else First(exts);
    assert OnlyNews(d, c, news + [x], blocks, exts + [x]);
  }

  /** A full table: the next extension block, which the last one now can point to. */
  method BeginExt(p: Populator, m: Medium, f: Format, h: Lba, s: Progress, ghost d: Disk, ghost whole: Bytes,
          ghost blocks: seq<Lba>, ghost exts: seq<Lba>, ghost news: seq<Lba>, ghost was: seq<Lba>, ghost left: nat)
    returns (r: Result<Progress, PopulateError>, ghost x: Lba)
    requires f.slots > 0 && s.inTable == f.slots && UnderWay(d, m.blocks, f, h, whole, blocks, exts, news, s)
    requires Handing(p, was, news, left, |m.blocks|)
    modifies p, m
    ensures r.Ok? ==>
              UnderWay(d, m.blocks, f, h, whole, blocks, exts + [x], news + [x], r.value) && r.value.inTable == 0
    ensures r.Ok? ==> Handing(p, was, news + [x], left, |m.blocks|)
    ensures r.Err? ==>
              r.error.VolumeFull? && left == |news| && Handing(p, was, news, left, |m.blocks|)
              && m.blocks == old(m.blocks)
  {
    hide UnderWay, Populator.Valid;
    x := 0;
    var a := p.AllocData();
    if a.Err? {
      return Err(a.error), x;
    }
    x := a.value;
    NewOne(p, was, news, x);
    LastIsThere(d, m.blocks, f, h, whole, blocks, exts, news, s);
    ExtBegun(d, m.blocks, f, h, whole, blocks, exts, news, s, x);
    match s.ext {
      case None =>
      case Some((last, pointers)) => m.Write(last, List(last, h, pointers, a.value));
    }
    r := Ok(WithExt(s, a.value));
  }

  lemma LastIsThere(d: Disk, e: Disk, f: Format, h: Lba, whole: Bytes, blocks: seq<Lba>, exts: seq<Lba>,
          news: seq<Lba>, s: Progress)
    requires f.slots > 0 && UnderWay(d, e, f, h, whole, blocks, exts, news, s)
    ensures s.ext.Some? ==> s.ext.value.0 < |e|
    ensures s.pending.Some? ==> s.pending.value.0 < |e|
  {
    ExtsInside(d, e, news, blocks, exts);
    hide Closed, Poured, NoRepeats;
  }

  /** The disk, and what is remembered, once `buf` has come for block `x`. */
  function PushedDisk(e: Disk, f: Format, h: Lba, s: Progress, x: Lba): Disk {
    match s.pending
    case None => e
    case Some((last, i)) => if last < |e| then e[last := DataBlock(f, h, i, s.held, x)] else e
  }

  function WithBlock(s: Progress, k: nat, x: Lba, buf: Bytes): Progress {
    s.(table := if s.ext.None? then s.table + [x] else s.table,
       ext := match s.ext case None => None case Some((lba, pointers)) => Some((lba, pointers + [x])),
       inTable := s.inTable + 1, pending := Some((x, k)), held := buf)
  }

  lemma BlockTabled(f: Format, blocks: seq<Lba>, exts: seq<Lba>, s: Progress, x: Lba, buf: Bytes)
    requires f.slots > 0 && Tabled(f, blocks, exts, s.table, s.first, s.ext, s.inTable) && s.inTable < f.slots
    ensures var t := WithBlock(s, |blocks|, x, buf); Tabled(f, blocks + [x], exts, t.table, t.first, t.ext, t.inTable)
  {
    var start := |exts| * f.slots;
    if exts == [] {
      assert (blocks + [x])[..|blocks| + 1] == blocks[..|blocks|] + [x];
    } else {
      MulMonotone(1, |exts|, f.slots);
      assert (blocks + [x])[..f.slots] == blocks[..f.slots];
      assert (blocks + [x])[start..] == blocks[start..] + [x];
    }
  }

  lemma BlockPoured(e: Disk, f: Format, h: Lba, whole: Bytes, blocks: seq<Lba>, s: Progress, x: Lba)
    requires Pending(f, whole, blocks, s.pending, s.held) && NoRepeats(blocks)
              && (blocks != [] ==> blocks[|blocks| - 1] < |e|)
    requires Poured(e, f, h, whole, blocks, if blocks == [] then 0 else |blocks| - 1)
    ensures Poured(PushedDisk(e, f, h, s, x), f, h, whole, blocks + [x], |blocks|)
    ensures Poured(PushedDisk(e, f, h, s, x), f, h, whole, blocks, |blocks|)
  {
    hide Chunk, DataBlock;
    var c := PushedDisk(e, f, h, s, x);
    if blocks != [] { PouredOneMore(e, f, h, whole, blocks, |blocks| - 1, x); }
    forall k | 0 <= k < |blocks|
      ensures Delivers(c, f.ffs, h, k, (blocks + [x])[k], Chunk(whole, f.payload, k))
    {
      assert Delivers(c, f.ffs, h, k, blocks[k], Chunk(whole, f.payload, k));
    }
  }

  lemma BlockPushed(d: Disk, e: Disk, f: Format, h: Lba, whole: Bytes, blocks: seq<Lba>, exts: seq<Lba>,
          news: seq<Lba>, s: Progress, x: Lba, buf: Bytes)
    requires f.slots > 0 && s.inTable < f.slots && UnderWay(d, e, f, h, whole, blocks, exts, news, s) && x !in news
              && 0 < x < |e|
    requires buf == Chunk(whole, f.payload, |blocks|)
    ensures UnderWay(d, PushedDisk(e, f, h, s, x), f, h, whole, blocks + [x], exts, news + [x],
              WithBlock(s, |blocks|, x, buf))
  {
    hide Chunk, Poured, ExtAt, Listed, DataBlock;
    ExtsInside(d, e, news, blocks, exts);
    NewsMore(d, e, news, blocks, exts, x);
    BlockTabled(f, blocks, exts, s, x, buf);
    BlockPoured(e, f, h, whole, blocks, s, x);
    var c := PushedDisk(e, f, h, s, x);
    if blocks != [] {
      StayClosed(e, f, h, blocks, exts, x, blocks[|blocks| - 1], c[blocks[|blocks| - 1]]);
      assert c == e[blocks[|blocks| - 1] := c[blocks[|blocks| - 1]]];
    } else {
      StayClosed(e, f, h, blocks, exts, x, x, e[x]);
      assert c == e == e[x := e[x]];
    }
    assert OnlyNews(d, c, news + [x], blocks + [x], exts);
    assert Elsewhere(d, c, news + [x]);
  }

  /** One more data block: the one that waited goes to the disk, and this one waits. */
  method AddBlock(p: Populator, m: Medium, f: Format, h: Lba, s: Progress, k: nat, buf: Bytes, ghost d: Disk,
          ghost whole: Bytes, ghost blocks: seq<Lba>, ghost exts: seq<Lba>, ghost news: seq<Lba>, ghost was: seq<Lba>,
          ghost left: nat)
    returns (r: Result<Progress, PopulateError>, ghost x: Lba)
    requires f.slots > 0 && s.inTable < f.slots && UnderWay(d, m.blocks, f, h, whole, blocks, exts, news, s)
    requires Handing(p, was, news, left, |m.blocks|) && k == |blocks| && buf == Chunk(whole, f.payload, k)
    modifies p, m
    ensures r.Ok? ==> UnderWay(d, m.blocks, f, h, whole, blocks + [x], exts, news + [x], r.value) && r.value.inTable > 0
    ensures r.Ok? ==> Handing(p, was, news + [x], left, |m.blocks|)
    ensures r.Err? ==>
              r.error.VolumeFull? && left == |news| && Handing(p, was, news, left, |m.blocks|)
              && m.blocks == old(m.blocks)
  {
    hide UnderWay, Populator.Valid, Chunk;
    x := 0;
    var a := p.AllocData();
    if a.Err? {
      return Err(a.error), x;
    }
    x := a.value;
    NewOne(p, was, news, x);
    LastIsThere(d, m.blocks, f, h, whole, blocks, exts, news, s);
    BlockPushed(d, m.blocks, f, h, whole, blocks, exts, news, s, x, buf);
    match s.pending {
      case None =>
      case Some((last, i)) => m.Write(last, DataBlock(f, h, i, s.held, a.value));
    }
    r := Ok(WithBlock(s, k, a.value, buf));
  }

  // ---- The end of it ---------------------------------------------------------------------------------------

  function FilledIn(hdr: Block, s: Progress, size: nat): Block
    requires IsFile(hdr)
  {
    hdr.(table := s.table, ext := s.first, size := size)
  }

  /** The last extension block is written with nothing after it. */
  lemma AllClosed(e: Disk, f: Format, h: Lba, blocks: seq<Lba>, exts: seq<Lba>, s: Progress)
    requires f.slots > 0 && Tabled(f, blocks, exts, s.table, s.first, s.ext, s.inTable) && Closed(e, f, h, blocks, exts)
    requires NoRepeats(exts) && forall x: Lba :: x in exts ==> 0 < x < |e|
    ensures ExtsTo(ClosedDisk(e, h, s, 0), f.slots, h, blocks, exts, |exts|)
  {
    if exts != [] {
      var n := |exts| - 1;
      var c := ClosedDisk(e, h, s, 0);
      assert exts[n] in exts && GroupEnd(n, f.slots) == |exts| * f.slots;
      var rest := Rest(blocks, f.slots, n);
      assert rest == blocks[|exts| * f.slots..] && rest[..Min(f.slots, |rest|)] == rest;
      forall j | 0 <= j <= n
        ensures ExtAt(c, f.slots, h, blocks, exts, j)
      {
        if j < n { assert ExtAt(e, f.slots, h, blocks, exts, j) && exts[j] != exts[n]; }
      }
    }
  }

  /** The disk once the last block, the last extension block and the header are written. */
  function EndDisk(e: Disk, f: Format, h: Lba, s: Progress, b: Block): Disk {
    var c := ClosedDisk(PushedDisk(e, f, h, s, 0), h, s, 0);
    if h < |c| then c[h := b] else c
  }

  lemma StreamEnds(d: Disk, e: Disk, f: Format, h: Lba, whole: Bytes, blocks: seq<Lba>, exts: seq<Lba>, news: seq<Lba>,
          s: Progress, hdr: Block)
    requires f.payload > 0 && f.slots > 0 && UnderWay(d, e, f, h, whole, blocks, exts, news, s) && IsFile(hdr)
              && h < |e| && h !in news
    requires |blocks| == CeilDiv(|whole|, f.payload) && |exts| == ExtCount(|blocks|, f.slots)
    ensures Stored(EndDisk(e, f, h, s, FilledIn(hdr, s, |whole|)), f, h, whole)
    ensures Elsewhere(d, EndDisk(e, f, h, s, FilledIn(hdr, s, |whole|)), news + [h])
  {
    hide Chunk, Poured, ExtAt, Listed, DataBlock, CeilDiv, ExtCount, Stored, LaidOut, ExtsTo;
    ExtsInside(d, e, news, blocks, exts);
    BlockPoured(e, f, h, whole, blocks, s, 0);
    var c := PushedDisk(e, f, h, s, 0);
    if blocks != [] {
      StayClosed(e, f, h, blocks, exts, 0, blocks[|blocks| - 1], c[blocks[|blocks| - 1]]);
      assert c == e[blocks[|blocks| - 1] := c[blocks[|blocks| - 1]]];
    }
    AllClosed(c, f, h, blocks, exts, s);
    var c2 := ClosedDisk(c, h, s, 0);
    if exts != [] { LastIsElsewhere(c, f, h, whole, blocks, exts, c2[exts[|exts| - 1]]); assert c2 ==
        c[exts[|exts| - 1] := c2[exts[|exts| - 1]]]; }
    AllExtsLaid(c2, f.slots, h, blocks, exts, 0);
    RestAll(blocks, f.slots);
    assert exts[0..] == exts;
    BornFileReads(EndDisk(e, f, h, s, FilledIn(hdr, s, |whole|)), f, h, FilledIn(hdr, s, |whole|), whole, blocks, exts,
        c2);
  }

  /** What is left to write when nothing more comes. */
  method EndStream(m: Medium, f: Format, h: Lba, s: Progress, hdr: Block, size: nat)
    requires h < |m.blocks| && IsFile(hdr)
    requires (s.pending.Some? ==> s.pending.value.0 < |m.blocks|) && (s.ext.Some? ==> s.ext.value.0 < |m.blocks|)
    modifies m
    ensures m.blocks == EndDisk(old(m.blocks), f, h, s, FilledIn(hdr, s, size))
  {
    match s.pending {
      case None =>
      case Some((last, i)) => m.Write(last, DataBlock(f, h, i, s.held, 0));
    }
    match s.ext {
      case None =>
      case Some((last, pointers)) => m.Write(last, List(last, h, pointers, 0));
    }
    m.Write(h, FilledIn(hdr, s, size));
  }

  lemma StartsEmpty(d: Disk, f: Format, h: Lba, whole: Bytes)
    requires f.slots > 0
    ensures UnderWay(d, d, f, h, whole, [], [], [], Progress([], 0, None, 0, None, [])) && Come(f, whole, 0, 0)
  {}

  /** How many extension blocks there are, and are to be with one block more. */
  lemma ExtsCounted(d: Disk, e: Disk, f: Format, h: Lba, whole: Bytes, blocks: seq<Lba>, exts: seq<Lba>,
          news: seq<Lba>, s: Progress)
    requires f.slots > 0 && UnderWay(d, e, f, h, whole, blocks, exts, news, s)
    requires (blocks == [] ==> exts == []) && (blocks != [] ==> s.inTable > 0)
    ensures |exts| == ExtCount(|blocks|, f.slots) && s.inTable <= f.slots && |news| == |blocks| + |exts|
    ensures ExtCount(|blocks| + 1, f.slots) == if s.inTable == f.slots then |exts| + 1 else |exts|
  {
    var n, k := |exts|, |blocks|;
    hide Closed, Poured, Pending, OnlyNews, Elsewhere, ExtCount;
    assert (n + 1) * f.slots == n * f.slots + f.slots && (n + 2) * f.slots == (n + 1) * f.slots + f.slots;
    ExtsAre(f.slots, k, n);
    if s.inTable == f.slots { ExtsAre(f.slots, k + 1, n + 1); } else { ExtsAre(f.slots, k + 1, n); }
    NewsCounted(d, e, news, blocks, exts);
  }

  lemma NewsCounted(d: Disk, e: Disk, news: seq<Lba>, blocks: seq<Lba>, exts: seq<Lba>)
    requires OnlyNews(d, e, news, blocks, exts)
    ensures |news| == |blocks| + |exts|
  {}

  lemma OthersUntouched(p: Populator, was: seq<Lba>, news: seq<Lba>, left: nat, d: Disk, e: Disk)
    requires Handing(p, was, news, left, |e|) && Elsewhere(d, e, news)
    ensures forall x: Lba :: x in was ==> x !in news
    ensures forall x: Lba :: x < |d| && (x in was || x !in p.handed) ==> e[x] == d[x]
    ensures was <= p.handed && p.Valid() && |p.handed| == |was| + |news|
  {
    var all := was + news;
    assert forall i :: 0 <= i < |was| ==> all[i] == was[i];
    assert forall i :: 0 <= i < |news| ==> all[|was| + i] == news[i];
  }

  lemma WayIsElsewhere(d: Disk, e: Disk, f: Format, h: Lba, whole: Bytes, blocks: seq<Lba>, exts: seq<Lba>,
          news: seq<Lba>, s: Progress)
    requires f.slots > 0 && UnderWay(d, e, f, h, whole, blocks, exts, news, s)
    ensures Elsewhere(d, e, news)
  {
    hide Tabled, Closed, Poured, Pending, OnlyNews;
  }

  /** Everything the source has, block after block. */
  method Pull(p: Populator, m: Medium, f: Format, h: Lba, src: Source)
    returns (r: Result<(Progress, nat), PopulateError>, ghost blocks: seq<Lba>, ghost exts: seq<Lba>,
        ghost news: seq<Lba>)
    requires p.Valid() && 0 < p.reserved && p.count <= |m.blocks| && f.payload > 0 && f.slots > 0
    modifies p, m, src
    ensures Handing(p, old(p.handed), news, old(p.Left()), |m.blocks|) && Elsewhere(old(m.blocks), m.blocks, news)
    ensures r.Ok? <==> |old(src.rest)| <= MAX_SIZE && Footprint(f, |old(src.rest)|) <= old(p.Left())
    ensures r.Err? ==>
              if r.error.VolumeFull? then p.Valid() && p.Left() == 0 else MAX_SIZE < r.error.len <= |old(src.rest)|
    ensures r.Ok? ==>
              && UnderWay(old(m.blocks), m.blocks, f, h, old(src.rest), blocks, exts, news, r.value.0)
                  && r.value.1 == |old(src.rest)|
              && |blocks| == CeilDiv(|old(src.rest)|, f.payload) && |exts| == ExtCount(|blocks|, f.slots)
                  && |news| == Footprint(f, r.value.1)
  {
    hide UnderWay, Chunk, Come, ExtCount, CeilDiv, Elsewhere;
    ghost var whole, d, was, left := src.rest, m.blocks, p.handed, p.Left();
    blocks, exts, news := [], [], [];
    var s := Progress([], 0, None, 0, None, []);
    var total: nat, k: nat := 0, 0;
    StartsEmpty(d, f, h, whole);
    hide Populator.Valid;
    while true
      invariant p.count <= |m.blocks| && Handing(p, was, news, left, |m.blocks|)
                && UnderWay(d, m.blocks, f, h, whole, blocks, exts, news, s)
      invariant k == |blocks| && Come(f, whole, k, total) && total <= |whole| && total <= MAX_SIZE
                && src.rest == whole[total..]
      invariant (blocks == [] ==> exts == []) && (blocks != [] ==> s.inTable > 0)
      decreases |src.rest|
    {
      WayIsElsewhere(d, m.blocks, f, h, whole, blocks, exts, news, s);
      ExtsCounted(d, m.blocks, f, h, whole, blocks, exts, news, s);
      var buf := Fill(src, f.payload);
      if buf == [] {
        break;
      }
      OneFull(f, whole, k, total, buf);
      total := total + |buf|;
      if total > MAX_SIZE {
        return Err(PopulateError.FileTooLarge(total)), blocks, exts, news;
      }
      MoreNeeded(f, whole, k, ExtCount(k + 1, f.slots));
      if s.inTable == f.slots {
        var begun;
        ghost var x;
        begun, x := BeginExt(p, m, f, h, s, d, whole, blocks, exts, news, was, left);
        if begun.Err? {
          return Err(begun.error), blocks, exts, news;
        }
        exts, news, s := exts + [x], news + [x], begun.value;
      }
      ghost var y;
      var added;
      WayIsElsewhere(d, m.blocks, f, h, whole, blocks, exts, news, s);
      added, y := AddBlock(p, m, f, h, s, k, buf, d, whole, blocks, exts, news, was, left);
      if added.Err? {
        return Err(added.error), blocks, exts, news;
      }
      blocks, news, s, k := blocks + [y], news + [y], added.value, k + 1;
    }
    AllCome(f, whole, k, total);
    r := Ok((s, total));
  }

  /** Create a file from a source, whatever pieces it gives: exactly when its length can be
      recorded and there are the blocks, and then the file holds what the source had. Nothing
      is written but its own blocks, none of which had been handed out. */
  method CreateFileWith(p: Populator, m: Medium, f: Format, h: Lba, hdr: Block, src: Source)
          returns (r: Result<nat, PopulateError>)
    requires p.Valid() && 0 < p.reserved && p.count <= |m.blocks| && h in p.handed && IsFile(hdr) && f.payload > 0
              && f.slots > 0
    modifies p, m, src
    ensures p.Valid() && old(p.handed) <= p.handed && |m.blocks| == |old(m.blocks)|
    ensures r.Ok? <==> |old(src.rest)| <= MAX_SIZE && Footprint(f, |old(src.rest)|) <= old(p.Left())
    ensures r.Err? ==>
              if r.error.VolumeFull? then p.Valid() && p.Left() == 0 else MAX_SIZE < r.error.len <= |old(src.rest)|
    ensures r.Ok? ==> r.value == |old(src.rest)| && Stored(m.blocks, f, h, old(src.rest))
    ensures r.Ok? ==> |p.handed| == |old(p.handed)| + Footprint(f, r.value)
    ensures forall x: Lba :: x < |m.blocks| && x != h && (x in old(p.handed) || x !in p.handed) ==>
              m.blocks[x] == old(m.blocks)[x]
  {
    hide UnderWay, Footprint, CeilDiv, ExtCount, Stored, EndDisk;
    ghost var whole, d, was, left := src.rest, m.blocks, p.handed, p.Left();
    ghost var blocks, exts, news;
    var pulled;
    pulled, blocks, exts, news := Pull(p, m, f, h, src);
    OthersUntouched(p, was, news, left, d, m.blocks);
    match pulled {
      case Err(e) => r := Err(e);
      case Ok(v) =>
        ghost var e := m.blocks;
        StreamEnds(d, e, f, h, whole, blocks, exts, news, v.0, hdr);
        LastIsThere(d, e, f, h, whole, blocks, exts, news, v.0);
        EndStream(m, f, h, v.0, hdr, v.1);
        r := Ok(v.1);
    }
  }
}
