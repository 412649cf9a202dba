/**
 File chains against the shape: what the header and the extension blocks of a file list
 is the file's own, and no block of it is listed twice.
 */
module Chains {
  import opened Words
  import opened Disk
  import opened Forest
  import opened Directories
  import opened Protocol
  import opened Reader

  /** The block whose pointer leads to extension block `i`. */
  function ExtFrom(header: Lba, exts: seq<Lba>, i: nat): Lba
    requires i < |exts|
  {
    if i == 0 then header else exts[i - 1]
  }

  /** The blocks a walk of the extension blocks `exts` lists are owned by them, each once. */
  lemma {:induction false} WalkIsOwned(d: Disk, s: Shape, slots: nat, header: Lba, prev: Lba, from: Lba,
          exts: seq<Lba>, data: seq<Lba>)
    requires Grown(d, s) && Walks(d, slots, header, from, exts, data, 0) && NoRepeats(exts)
    requires from != 0 ==> from in s.up && s.up[from] == Edge(prev, Ext)
    ensures forall i :: 0 <= i < |exts| ==> exts[i] in s.up && s.up[exts[i]] == Edge(ExtFrom(prev, exts, i), Ext)
    ensures forall y :: y in data ==> y in s.up && s.up[y].link.Datum? && s.up[y].from in exts
    ensures NoRepeats(data)
    decreases |exts|
  {
    if exts != [] {
      assert from == exts[0];
      var own, rest := d[from].data, data[|d[from].data|..];
      assert data == own + rest;
      ListIsOwned(d, s, from);
      assert forall i :: 0 <= i < |exts[1..]| ==> exts[1..][i] == exts[i + 1];
      WalkIsOwned(d, s, slots, header, from, d[from].next, exts[1..], rest);
      forall i | 0 <= i < |exts|
        ensures exts[i] in s.up && s.up[exts[i]] == Edge(ExtFrom(prev, exts, i), Ext)
      {
        if i > 0 { assert exts[i] == exts[1..][i - 1]; }
      }
      JoinedApart(s, own, rest, from, exts);
    }
  }

  /** What an extension block lists is owned by it, each block once. */
  lemma ListIsOwned(d: Disk, s: Shape, x: Lba)
    requires Grown(d, s) && s.Owns(x) && x < |d| && d[x].List? && 0 !in d[x].data
    ensures forall y :: y in d[x].data ==> y in s.up && s.up[y].link.Datum? && s.up[y].from == x
    ensures NoRepeats(d[x].data)
    ensures d[x].next != 0 ==> d[x].next in s.up && s.up[d[x].next] == Edge(x, Ext)
  {
    assert Recorded(d, s, x) && At(d[x], Ext) == d[x].next;
    forall i | 0 <= i < |d[x].data|
      ensures d[x].data[i] in s.up && s.up[d[x].data[i]] == Edge(x, Datum(i))
    {
      assert At(d[x], Datum(i)) == d[x].data[i];
    }
  }

  lemma TableIsOwned(d: Disk, s: Shape, x: Lba)
    requires Grown(d, s) && s.Owns(x) && x < |d| && IsFile(d[x]) && 0 !in d[x].table
    ensures forall y :: y in d[x].table ==> y in s.up && s.up[y].link.Datum? && s.up[y].from == x
    ensures NoRepeats(d[x].table)
    ensures d[x].ext != 0 ==> d[x].ext in s.up && s.up[d[x].ext] == Edge(x, Ext)
  {
    assert Recorded(d, s, x) && At(d[x], Ext) == d[x].ext;
    forall i | 0 <= i < |d[x].table|
      ensures d[x].table[i] in s.up && s.up[d[x].table[i]] == Edge(x, Datum(i))
    {
      assert At(d[x], Datum(i)) == d[x].table[i];
    }
  }

  lemma JoinedApart(s: Shape, own: seq<Lba>, rest: seq<Lba>, from: Lba, exts: seq<Lba>)
    requires NoRepeats(own) && NoRepeats(rest) && NoRepeats(exts) && exts != [] && from == exts[0]
    requires forall y :: y in own ==> y in s.up && s.up[y].link.Datum? && s.up[y].from == from
    requires forall y :: y in rest ==> y in s.up && s.up[y].link.Datum? && s.up[y].from in exts[1..]
    ensures NoRepeats(own + rest)
    ensures forall y :: y in own + rest ==> y in s.up && s.up[y].link.Datum? && s.up[y].from in exts
  {
    assert from !in exts[1..];
    forall i, j | 0 <= i < j < |own + rest|
      ensures (own + rest)[i] != (own + rest)[j]
    {
      if i < |own| <= j {
        assert own[i] in own && rest[j - |own|] in rest;
      }
    }
  }

  /** A file's chain: its blocks and extension blocks hang off its header, each once. */
  lemma ChainIsOwned(d: Disk, f: Format, s: Shape, c: FileChain)
    requires Grown(d, s) && f.payload > 0 && IsChain(d, f, c) && s.Owns(c.header)
    ensures NoRepeats(c.blocks) && NoRepeats(c.extensions)
    ensures forall y :: y in c.blocks ==>
              y in s.up && s.up[y].link.Datum? && (s.up[y].from == c.header || s.up[y].from in c.extensions)
    ensures forall i :: 0 <= i < |c.extensions| ==>
              c.extensions[i] in s.up && s.up[c.extensions[i]] == Edge(ExtFrom(c.header, c.extensions, i), Ext)
    ensures HangsOff(s, c.header, SetOf(c.blocks) + SetOf(c.extensions))
  {
    hide Grown, Walks, CeilDiv;
    var own, rest := d[c.header].table, c.blocks[|d[c.header].table|..];
    ExtensionsApart(c.header, c.extensions);
    TableIsOwned(d, s, c.header);
    WalkIsOwned(d, s, f.slots, c.header, c.header, d[c.header].ext, c.extensions, rest);
    JoinedApart(s, own, rest, c.header, [c.header] + c.extensions);
    assert c.blocks == own + rest;
    OwnedHang(s, c);
  }

  lemma ExtensionsApart(header: Lba, exts: seq<Lba>)
    requires NoRepeats([header] + exts)
    ensures NoRepeats(exts) && header !in exts && ([header] + exts)[1..] == exts
  {
    var all := [header] + exts;
    assert all[0] == header && forall i :: 0 <= i < |exts| ==> exts[i] == all[i + 1];
  }

  lemma OwnedHang(s: Shape, c: FileChain)
    requires forall y :: y in c.blocks ==> y in s.up && (s.up[y].from == c.header || s.up[y].from in c.extensions)
    requires forall i :: 0 <= i < |c.extensions| ==>
               c.extensions[i] in s.up && s.up[c.extensions[i]] == Edge(ExtFrom(c.header, c.extensions, i), Ext)
    ensures HangsOff(s, c.header, SetOf(c.blocks) + SetOf(c.extensions))
  {
    forall y: Lba | y in c.extensions
      ensures y in s.up && (s.up[y].from == c.header || s.up[y].from in c.extensions)
    {
      var i :| 0 <= i < |c.extensions| && c.extensions[i] == y;
      if i > 0 { assert c.extensions[i - 1] in c.extensions; }
    }
  }

  // ---- Canonical tables -------------------------------------------------------------------------

  lemma {:induction false} CeilDivGrows(a: nat, b: nat, d: nat)
    requires d > 0 && a <= b
    ensures CeilDiv(a, d) <= CeilDiv(b, d)
    decreases b
  {
    if a > d { CeilDivGrows(a - d, b - d, d); }
  }

  function Min(a: nat, b: nat): nat {
    if a < b then a else b
  }

  function First(exts: seq<Lba>): Lba {
    if exts == [] then 0 else exts[0]
  }

  /** The extension blocks `exts` list `data` between them, every one full but the last. */
  ghost predicate LaidOut(d: Disk, slots: nat, header: Lba, exts: seq<Lba>, data: seq<Lba>)
    decreases |exts|
  {
    if data == [] then exts == []
    else
      && exts != [] && slots > 0 && 0 < exts[0] < |d|
      && d[exts[0]] == List(exts[0], header, data[..Min(slots, |data|)], First(exts[1..]))
      && LaidOut(d, slots, header, exts[1..], data[Min(slots, |data|)..])
  }

  lemma {:induction false} LaidOutWalks(d: Disk, slots: nat, header: Lba, exts: seq<Lba>, data: seq<Lba>)
    requires LaidOut(d, slots, header, exts, data) && 0 !in data
    ensures Walks(d, slots, header, First(exts), exts, data, 0)
    decreases |exts|
  {
    if data != [] {
      var k := Min(slots, |data|);
      assert data == data[..k] + data[k..];
      assert 0 !in data[..k] && 0 !in data[k..];
      LaidOutWalks(d, slots, header, exts[1..], data[k..]);
    }
  }

  lemma {:induction false} LaidOutCount(d: Disk, slots: nat, header: Lba, exts: seq<Lba>, data: seq<Lba>)
    requires LaidOut(d, slots, header, exts, data) && slots > 0
    ensures |exts| == CeilDiv(|data|, slots)
    decreases |exts|
  {
    if data != [] {
      LaidOutCount(d, slots, header, exts[1..], data[Min(slots, |data|)..]);
    }
  }

  lemma {:induction false} LaidOutFramed(d: Disk, slots: nat, header: Lba, exts: seq<Lba>, data: seq<Lba>, e: Disk)
    requires LaidOut(d, slots, header, exts, data) && |e| == |d|
    requires forall x: Lba :: x in exts && x < |d| ==> e[x] == d[x]
    ensures LaidOut(e, slots, header, exts, data)
    decreases |exts|
  {
    if data != [] {
      assert exts[0] in exts;
      forall x: Lba | x in exts[1..] && x < |d|
        ensures e[x] == d[x]
      {
        assert x in exts;
      }
      LaidOutFramed(d, slots, header, exts[1..], data[Min(slots, |data|)..], e);
    }
  }

  /** The file `c` fills its tables in order: the header's first, then each extension block's. */
  ghost predicate Canonical(d: Disk, f: Format, c: FileChain)
    requires f.payload > 0
  {
    && IsChain(d, f, c)
    && d[c.header].table == c.blocks[..Min(f.slots, |c.blocks|)] && d[c.header].ext == First(c.extensions)
    && LaidOut(d, f.slots, c.header, c.extensions, c.blocks[Min(f.slots, |c.blocks|)..])
  }

  /** A header that lists `blocks` and `exts` in order is the header of such a file. */
  lemma IsCanonical(d: Disk, f: Format, h: Lba, size: nat, blocks: seq<Lba>, exts: seq<Lba>)
    requires f.payload > 0 && f.slots > 0 && h < |d| && IsFile(d[h]) && d[h].size == size
    requires d[h].table == blocks[..Min(f.slots, |blocks|)] && d[h].ext == First(exts)
    requires LaidOut(d, f.slots, h, exts, blocks[Min(f.slots, |blocks|)..]) && 0 !in blocks
    requires NoRepeats([h] + exts) && |blocks| == CeilDiv(size, f.payload)
    ensures Canonical(d, f, FileChain(h, size, blocks, exts))
  {
    var k := Min(f.slots, |blocks|);
    assert blocks == blocks[..k] + blocks[k..];
    assert 0 !in blocks[..k] && 0 !in blocks[k..];
    LaidOutWalks(d, f.slots, h, exts, blocks[k..]);
  }

  // ---- The edges of a file ------------------------------------------------------------------------

  function ListEdges(x: Lba, data: seq<Lba>): map<Lba, Edge> {
    if data == [] then map[]
    else ListEdges(x, data[..|data| - 1])[data[|data| - 1] := Edge(x, Datum(|data| - 1))]
  }

  lemma {:induction false} ListEdgesAre(x: Lba, data: seq<Lba>)
    requires NoRepeats(data)
    ensures ListEdges(x, data).Keys == SetOf(data)
    ensures forall i :: 0 <= i < |data| ==> ListedAt(x, data, i)
    decreases |data|
  {
    if data != [] {
      var n := |data| - 1;
      var rest := data[..n];
      ListEdgesAre(x, rest);
      assert data == rest + [data[n]];
      SetOfMore(rest, data[n]);
      forall i | 0 <= i < |data|
        ensures ListedAt(x, data, i)
      {
        StillListed(x, data, i);
      }
      hide ListedAt, NoRepeats;
    }
  }

  lemma StillListed(x: Lba, data: seq<Lba>, i: nat)
    requires NoRepeats(data) && i < |data| && (i < |data| - 1 ==> ListedAt(x, data[..|data| - 1], i))
    ensures ListedAt(x, data, i)
  {}

  predicate ListedAt(x: Lba, data: seq<Lba>, i: nat)
    requires i < |data|
  {
    data[i] in ListEdges(x, data) && ListEdges(x, data)[data[i]] == Edge(x, Datum(i))
  }

  /** The edges to extension blocks and to what they list. */
  function TailEdges(prev: Lba, slots: nat, exts: seq<Lba>, data: seq<Lba>): map<Lba, Edge>
    decreases |exts|
  {
    if exts == [] then map[]
    else
      var k := Min(slots, |data|);
      TailEdges(exts[0], slots, exts[1..], data[k..]) + ListEdges(exts[0], data[..k]) + map[exts[0] := Edge(prev, Ext)]
  }

  function FileEdges(h: Lba, slots: nat, blocks: seq<Lba>, exts: seq<Lba>): map<Lba, Edge> {
    var k := Min(slots, |blocks|);
    TailEdges(h, slots, exts, blocks[k..]) + ListEdges(h, blocks[..k])
  }

  /** The blocks of `keys` are the file's, and every pointer of theirs is one of `mine`. */
  ghost predicate Hanging(d: Disk, mine: map<Lba, Edge>, keys: set<Lba>) {
    && mine.Keys == keys
    && (forall y: Lba :: y in mine ==>
        0 < y < |d| && Fits(d[y], mine[y].link) && (mine[y].link.Datum? || mine[y].link.Ext?))
    && (forall y: Lba, l :: y in mine && y < |d| && At(d[y], l) != 0 ==>
        At(d[y], l) in mine && mine[At(d[y], l)] == Edge(y, l))
  }

  /** Content blocks that are there. */
  predicate AllContent(d: Disk, data: seq<Lba>) {
    forall y :: y in data ==> 0 < y < |d| && IsContent(d[y])
  }

  lemma ListHangs(d: Disk, x: Lba, data: seq<Lba>)
    requires NoRepeats(data) && AllContent(d, data)
    ensures Hanging(d, ListEdges(x, data), SetOf(data))
  {
    ListEdgesAre(x, data);
    hide ListEdges, At, Fits, ListedAt;
    forall y: Lba | y in ListEdges(x, data)
      ensures 0 < y < |d| && Fits(d[y], ListEdges(x, data)[y].link) && ListEdges(x, data)[y].link.Datum?
                && forall l :: At(d[y], l) == 0
    {
      var i :| 0 <= i < |data| && data[i] == y;
      ListedFits(d, x, data, i);
    }
  }

  lemma ListedFits(d: Disk, x: Lba, data: seq<Lba>, i: nat)
    requires i < |data| && ListedAt(x, data, i) && data[i] < |d| && IsContent(d[data[i]])
    ensures data[i] in ListEdges(x, data) && ListEdges(x, data)[data[i]] == Edge(x, Datum(i))
    ensures Fits(d[data[i]], Datum(i)) && forall l :: At(d[data[i]], l) == 0
  {
    hide ListEdges;
  }

  lemma {:induction false} TailHangs(d: Disk, prev: Lba, slots: nat, header: Lba, exts: seq<Lba>, data: seq<Lba>)
    requires LaidOut(d, slots, header, exts, data) && NoRepeats(exts) && NoRepeats(data) && AllContent(d, data)
    ensures Hanging(d, TailEdges(prev, slots, exts, data), SetOf(exts) + SetOf(data))
    ensures exts != [] ==>
              exts[0] in TailEdges(prev, slots, exts, data)
              && TailEdges(prev, slots, exts, data)[exts[0]] == Edge(prev, Ext)
    ensures forall y :: y in exts ==> y < |d| && d[y].List?
    decreases |exts|
  {
    hide At, Fits, Hanging, ListEdges;
    if exts != [] {
      var k := Min(slots, |data|);
      var own, rest, more := data[..k], data[k..], exts[1..];
      assert data == own + rest && exts == [exts[0]] + more;
      assert forall y :: y in own || y in rest ==> y in data;
      assert NoRepeats(own) && NoRepeats(rest) && NoRepeats(more);
      TailHangs(d, exts[0], slots, header, more, rest);
      ListHangs(d, exts[0], own);
      Disjoint(d, exts, own, rest);
      ExtPoints(d, slots, header, exts, data);
      TailUnfolds(prev, slots, exts, data);
      hide LaidOut, Hanging, AllContent, NoRepeats, SetOf, TailEdges, ListEdges;
      Graft(d, prev, exts[0], TailEdges(exts[0], slots, more, rest), SetOf(more) + SetOf(rest),
          ListEdges(exts[0], own), SetOf(own));
      SetsOfTail(exts, data, k);
    } else {
      NothingHangs(d, prev, slots);
      assert SetOf(exts) + SetOf(data) == {};
    }
  }

  lemma NothingHangs(d: Disk, prev: Lba, slots: nat)
    ensures Hanging(d, TailEdges(prev, slots, [], []), {})
  {}

  lemma TailUnfolds(prev: Lba, slots: nat, exts: seq<Lba>, data: seq<Lba>)
    requires exts != []
    ensures var k := Min(slots, |data|);
            TailEdges(prev, slots, exts, data) ==
              TailEdges(exts[0], slots, exts[1..], data[k..]) + ListEdges(exts[0],
                  data[..k]) + map[exts[0] := Edge(prev, Ext)]
  {}

  lemma SetsOfTail(exts: seq<Lba>, data: seq<Lba>, k: nat)
    requires exts != [] && k <= |data|
    ensures SetOf(exts[1..]) + SetOf(data[k..]) + SetOf(data[..k]) + {exts[0]} == SetOf(exts) + SetOf(data)
  {
    assert data == data[..k] + data[k..] && exts == [exts[0]] + exts[1..];
    SetOfBoth(data[..k], data[k..]);
    SetOfBoth([exts[0]], exts[1..]);
    assert SetOf([exts[0]]) == {exts[0]};
  }

  lemma Disjoint(d: Disk, exts: seq<Lba>, own: seq<Lba>, rest: seq<Lba>)
    requires exts != [] && NoRepeats(exts) && NoRepeats(own + rest) && AllContent(d, own + rest)
    requires exts[0] < |d| && d[exts[0]].List? && forall y :: y in exts[1..] ==> y < |d| && d[y].List?
    ensures (SetOf(exts[1..]) + SetOf(rest)) !! SetOf(own)
    ensures exts[0] !in SetOf(exts[1..]) + SetOf(rest) && exts[0] !in SetOf(own)
  {
    var all := own + rest;
    forall y | y in own
      ensures y !in rest && y in all
    {
      var i :| 0 <= i < |own| && own[i] == y;
      assert all[i] == y;
      forall j | 0 <= j < |rest|
        ensures rest[j] != y
      {
        assert all[|own| + j] == rest[j];
      }
    }
    assert forall y :: y in rest ==> y in all;
  }

  /** An extension block points to what it lists and to the next one. */
  lemma ExtPoints(d: Disk, slots: nat, header: Lba, exts: seq<Lba>, data: seq<Lba>)
    requires exts != [] && LaidOut(d, slots, header, exts, data) && NoRepeats(data)
    requires exts[1..] != [] ==> exts[1..][0] in TailEdges(exts[0], slots, exts[1..], data[Min(slots, |data|)..])
                                 && TailEdges(exts[0], slots, exts[1..], data[Min(slots, |data|)..])[exts[1..][0]] ==
                                     Edge(exts[0], Ext)
    ensures 0 < exts[0] < |d| && d[exts[0]].List?
    ensures forall l :: At(d[exts[0]], l) != 0 ==>
              PointsAlong(ListEdges(exts[0], data[..Min(slots, |data|)]),
                  TailEdges(exts[0], slots, exts[1..], data[Min(slots, |data|)..]),
                          At(d[exts[0]], l), Edge(exts[0], l))
  {
    var own := data[..Min(slots, |data|)];
    ListEdgesAre(exts[0], own);
    hide ListEdges, TailEdges;
    forall l | At(d[exts[0]], l) != 0
      ensures PointsAlong(ListEdges(exts[0], own), TailEdges(exts[0], slots, exts[1..], data[Min(slots, |data|)..]),
                          At(d[exts[0]], l), Edge(exts[0], l))
    {
      if l.Datum? {
        assert l.i < |own| && ListedAt(exts[0], own, l.i);
      } else {
        assert l.Ext?;
      }
    }
  }

  predicate PointsAlong(own: map<Lba, Edge>, rest: map<Lba, Edge>, y: Lba, edge: Edge) {
    (y in own && own[y] == edge) || (y in rest && rest[y] == edge)
  }

  lemma Graft(d: Disk, prev: Lba, x: Lba, rest: map<Lba, Edge>, restKeys: set<Lba>, own: map<Lba, Edge>,
          ownKeys: set<Lba>)
    requires Hanging(d, rest, restKeys) && Hanging(d, own, ownKeys) && restKeys !! ownKeys && x !in restKeys
              && x !in ownKeys
    requires 0 < x < |d| && d[x].List?
    requires forall l :: At(d[x], l) != 0 ==> PointsAlong(own, rest, At(d[x], l), Edge(x, l))
    ensures Hanging(d, rest + own + map[x := Edge(prev, Ext)], restKeys + ownKeys + {x})
  {
    var all := rest + own + map[x := Edge(prev, Ext)];
    assert forall y: Lba :: y in rest ==> y in all && all[y] == rest[y];
    assert forall y: Lba :: y in own ==> y in all && all[y] == own[y];
    assert Fits(d[x], Ext);
    hide At, Fits;
  }

  /** A file's own blocks hang together off its header. */
  lemma FileHangs(d: Disk, h: Lba, slots: nat, header: Lba, blocks: seq<Lba>, exts: seq<Lba>)
    requires LaidOut(d, slots, header, exts, blocks[Min(slots, |blocks|)..]) && NoRepeats(exts) && NoRepeats(blocks)
              && AllContent(d, blocks)
    ensures Hanging(d, FileEdges(h, slots, blocks, exts), SetOf(blocks) + SetOf(exts))
    ensures forall i :: 0 <= i < Min(slots, |blocks|) ==>
              blocks[i] in FileEdges(h, slots, blocks, exts)
                  && FileEdges(h, slots, blocks, exts)[blocks[i]] == Edge(h, Datum(i))
    ensures exts != [] ==>
              exts[0] in FileEdges(h, slots, blocks, exts) && FileEdges(h, slots, blocks, exts)[exts[0]] == Edge(h, Ext)
  {
    hide At, Fits, ListEdges, TailEdges, Hanging, LaidOut;
    var k := Min(slots, |blocks|);
    var own, rest := blocks[..k], blocks[k..];
    assert blocks == own + rest;
    assert forall y :: y in own || y in rest ==> y in blocks;
    TailHangs(d, h, slots, header, exts, rest);
    ListHangs(d, h, own);
    ListEdgesAre(h, own);
    SetOfBoth(own, rest);
    assert SetOf(exts) + SetOf(rest) + SetOf(own) == SetOf(blocks) + SetOf(exts);
    TableApart(d, exts, own, rest);
    forall i | 0 <= i < k
      ensures blocks[i] in ListEdges(h, own) && ListEdges(h, own)[blocks[i]] == Edge(h, Datum(i))
    {
      assert ListedAt(h, own, i) && own[i] == blocks[i];
    }
    hide LaidOut, At, Fits, ListEdges, TailEdges, Hanging, SetOf, NoRepeats, AllContent;
    HangTogether(d, TailEdges(h, slots, exts, rest), SetOf(exts) + SetOf(rest), ListEdges(h, own), SetOf(own));
  }

  lemma HangTogether(d: Disk, rest: map<Lba, Edge>, restKeys: set<Lba>, own: map<Lba, Edge>, ownKeys: set<Lba>)
    requires Hanging(d, rest, restKeys) && Hanging(d, own, ownKeys) && restKeys !! ownKeys
    ensures Hanging(d, rest + own, restKeys + ownKeys)
    ensures forall y: Lba :: y in rest ==> (rest + own)[y] == rest[y]
    ensures forall y: Lba :: y in own ==> (rest + own)[y] == own[y]
  {
    hide At, Fits;
    assert forall y: Lba :: y in rest ==> y in rest + own && (rest + own)[y] == rest[y];
    assert forall y: Lba :: y in own ==> y in rest + own && (rest + own)[y] == own[y];
  }

  lemma TableApart(d: Disk, exts: seq<Lba>, own: seq<Lba>, rest: seq<Lba>)
    requires NoRepeats(own + rest) && AllContent(d, own + rest) && forall y :: y in exts ==> y < |d| && d[y].List?
    ensures (SetOf(exts) + SetOf(rest)) !! SetOf(own)
  {
    var all := own + rest;
    forall y | y in own
      ensures y !in rest && y in all
    {
      var i :| 0 <= i < |own| && own[i] == y;
      assert all[i] == y;
      forall j | 0 <= j < |rest|
        ensures rest[j] != y
      {
        assert all[|own| + j] == rest[j];
      }
    }
  }

  // ---- A file some writes pass by ---------------------------------------------------------------

  lemma ChainHeader(d: Disk, f: Format, c: FileChain)
    requires f.payload > 0 && IsChain(d, f, c)
    ensures c.header < |d| && IsFile(d[c.header])
  {}

  /** The blocks of a file, header and all. */
  function BlocksOfChain(c: FileChain): set<Lba> {
    {c.header} + SetOf(c.extensions) + SetOf(c.blocks)
  }

  lemma {:induction false} WalksFramed(d: Disk, slots: nat, header: Lba, from: Lba, exts: seq<Lba>, data: seq<Lba>,
          end: Lba, e: Disk)
    requires Walks(d, slots, header, from, exts, data, end) && |e| == |d|
    requires forall x: Lba :: x in exts && x < |d| && d[x].List? ==> e[x] == d[x]
    ensures Walks(e, slots, header, from, exts, data, end)
    decreases |exts|
  {
    if exts != [] {
      assert exts[0] in exts;
      assert forall x: Lba :: x in exts[1..] ==> x in exts;
      WalksFramed(d, slots, header, d[from].next, exts[1..], data[|d[from].data|..], end, e);
    }
  }

  lemma {:induction false} WalkIsLists(d: Disk, slots: nat, header: Lba, from: Lba, exts: seq<Lba>, data: seq<Lba>,
          end: Lba)
    requires Walks(d, slots, header, from, exts, data, end)
    ensures forall x :: x in exts ==> x < |d| && d[x].List?
    decreases |exts|
  {
    if exts != [] {
      WalkIsLists(d, slots, header, d[from].next, exts[1..], data[|d[from].data|..], end);
      assert exts == [exts[0]] + exts[1..];
    }
  }

  /** Nothing of the chain was written: it is still a chain. */
  lemma ChainFramed(d: Disk, f: Format, c: FileChain, e: Disk)
    requires f.payload > 0 && IsChain(d, f, c) && |e| == |d|
    requires IsFile(e[c.header]) && e[c.header].table == d[c.header].table && e[c.header].ext == d[c.header].ext
              && e[c.header].size == d[c.header].size
    requires forall x: Lba :: x in c.extensions && x < |d| ==> e[x] == d[x]
    ensures IsChain(e, f, c)
  {
    WalksFramed(d, f.slots, c.header, d[c.header].ext, c.extensions, c.blocks[|d[c.header].table|..], 0, e);
  }

  lemma CanonicalFramed(d: Disk, f: Format, c: FileChain, e: Disk)
    requires f.payload > 0 && Canonical(d, f, c) && |e| == |d|
    requires IsFile(e[c.header]) && e[c.header].table == d[c.header].table && e[c.header].ext == d[c.header].ext
              && e[c.header].size == d[c.header].size
    requires forall x: Lba :: x in c.extensions && x < |d| ==> e[x] == d[x]
    ensures Canonical(e, f, c)
  {
    hide Walks, CeilDiv, LaidOut;
    ChainFramed(d, f, c, e);
    LaidOutFramed(d, f.slots, c.header, c.extensions, c.blocks[Min(f.slots, |c.blocks|)..], e);
  }

  lemma ContentFramed(d: Disk, f: Format, c: FileChain, t: Bytes, e: Disk)
    requires Holds(d, f, c, t) && |e| == |d|
    requires forall x: Lba :: x in c.blocks && x < |d| && IsContent(d[x]) ==> e[x] == d[x]
    ensures Holds(e, f, c, t)
  {
    forall i | 0 <= i < |c.blocks|
      ensures Delivers(e, f.ffs, c.header, i, c.blocks[i], Chunk(t, f.payload, i))
    {
      assert Delivers(d, f.ffs, c.header, i, c.blocks[i], Chunk(t, f.payload, i)) && c.blocks[i] in c.blocks;
    }
  }

  /** A file none of whose blocks an operation is about reads the same at every point of it. */
  lemma FileSpared(d: Disk, f: Format, s: Shape, e: Disk, busy: set<Lba>, c: FileChain, t: Bytes)
    requires f.payload > 0 && Grown(d, s) && IsChain(d, f, c) && Holds(d, f, c, t) && s.Owns(c.header)
    requires Spares(d, e, s, busy) && BlocksOfChain(c) !! busy
    ensures FileIs(e, f, c.header, t) && IsChain(e, f, c) && Holds(e, f, c, t)
  {
    ChainIsOwned(d, f, s, c);
    WalkIsLists(d, f.slots, c.header, d[c.header].ext, c.extensions, c.blocks[|d[c.header].table|..], 0);
    hide Grown, Walks, CeilDiv, HangsOff;
    forall x: Lba | x in c.extensions && x < |d|
      ensures e[x] == d[x]
    {
      var i :| 0 <= i < |c.extensions| && c.extensions[i] == x;
      assert s.Owns(x) && x !in busy;
    }
    forall x: Lba | x in c.blocks && x < |d| && IsContent(d[x])
      ensures e[x] == d[x]
    {
      assert s.Owns(x) && x !in busy;
    }
    assert c.header !in busy;
    ChainFramed(d, f, c, e);
    ContentFramed(d, f, c, t, e);
  }

  /** No block is in the chains of two files. */
  lemma ChainsApart(d: Disk, f: Format, s: Shape, a: FileChain, b: FileChain)
    requires f.payload > 0 && Grown(d, s) && IsChain(d, f, a) && IsChain(d, f, b) && s.Owns(a.header)
              && s.Owns(b.header)
    requires a.header != b.header
    ensures BlocksOfChain(a) !! BlocksOfChain(b)
  {
    hide Grown, Walks, HangsOff, CeilDiv;
    ChainIsOwned(d, f, s, a);
    ChainIsOwned(d, f, s, b);
    HeaderIsNoPart(d, f, s, a, b.header);
    HeaderIsNoPart(d, f, s, b, a.header);
    hide IsChain;
    forall i, j | 0 <= i < |a.extensions| && 0 <= j < |b.extensions|
      ensures a.extensions[i] != b.extensions[j]
    {
      ExtensionApart(s, a, b, i, j);
    }
    EverythingApart(s, a, b);
  }

  lemma EverythingApart(s: Shape, a: FileChain, b: FileChain)
    requires a.header != b.header && a.header !in b.extensions && b.header !in a.extensions
    requires a.header !in b.blocks && b.header !in a.blocks
    requires forall i, j :: 0 <= i < |a.extensions| && 0 <= j < |b.extensions| ==> a.extensions[i] != b.extensions[j]
    requires forall y :: y in a.blocks ==>
              y in s.up && s.up[y].link.Datum? && (s.up[y].from == a.header || s.up[y].from in a.extensions)
    requires forall y :: y in b.blocks ==>
              y in s.up && s.up[y].link.Datum? && (s.up[y].from == b.header || s.up[y].from in b.extensions)
    requires forall i :: 0 <= i < |a.extensions| ==> a.extensions[i] in s.up && s.up[a.extensions[i]].link.Ext?
    requires forall i :: 0 <= i < |b.extensions| ==> b.extensions[i] in s.up && s.up[b.extensions[i]].link.Ext?
    ensures BlocksOfChain(a) !! BlocksOfChain(b)
  {}

  lemma HeaderIsNoPart(d: Disk, f: Format, s: Shape, c: FileChain, h: Lba)
    requires f.payload > 0 && Grown(d, s) && IsChain(d, f, c) && s.Owns(c.header) && h < |d| && d[h].Header?
    ensures h !in c.extensions && h !in c.blocks
  {
    ChainIsOwned(d, f, s, c);
    WalkIsLists(d, f.slots, c.header, d[c.header].ext, c.extensions, c.blocks[|d[c.header].table|..], 0);
    forall y | y in c.blocks
      ensures y != h
    {
      assert Fits(d[y], s.up[y].link);
    }
  }

  lemma {:induction false} ExtensionApart(s: Shape, a: FileChain, b: FileChain, i: nat, j: nat)
    requires i < |a.extensions| && j < |b.extensions|
    requires a.header != b.header && a.header !in b.extensions && b.header !in a.extensions
    requires forall j :: 0 <= j < |a.extensions| ==>
              a.extensions[j] in s.up && s.up[a.extensions[j]] == Edge(ExtFrom(a.header, a.extensions, j), Ext)
    requires forall j :: 0 <= j < |b.extensions| ==>
              b.extensions[j] in s.up && s.up[b.extensions[j]] == Edge(ExtFrom(b.header, b.extensions, j), Ext)
    ensures a.extensions[i] != b.extensions[j]
    decreases i
  {
    if i > 0 && j > 0 {
      ExtensionApart(s, a, b, i - 1, j - 1);
    } else if i > 0 {
      assert a.extensions[i - 1] in a.extensions;
    } else if j > 0 {
      assert b.extensions[j - 1] in b.extensions;
    }
  }
}
