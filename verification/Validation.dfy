/**
 The validator's walk: from the root along every pointer it believes, on any disk at all.
 It ends; what it marks is reached; and when it has nothing to report it has marked
 everything that is.
 */
module Validation {
  import opened Words
  import opened Disk
  import opened Allocation
  import opened Names
  import opened Forest
  import opened Directories
  import opened Dircache
  import opened Reader
  import opened Chains

  // ---- What a walk comes to ----------------------------------------------------------------------

  /** What is found at the far end is not read for pointers: contents, comments, bitmap pages. */
  predicate IsLeaf(l: Link) {
    l.Datum? || l.Note? || l.Page?
  }

  /** A pointer the format has. */
  predicate Followed(f: Format, l: Link) {
    l.CacheHead? || l.CacheNext? ==> f.dircache
  }

  ghost predicate StepsTo(d: Disk, f: Format, x: Lba, y: Lba) {
    x < |d| && y != 0 && exists l :: Followed(f, l) && !IsLeaf(l) && At(d[x], l) == y
  }

  ghost predicate IsTrek(d: Disk, f: Format, path: seq<Lba>) {
    |path| > 0 && forall i :: 0 <= i < |path| - 1 ==> StepsTo(d, f, path[i], path[i + 1])
  }

  /** A walk from `root` comes to `x` and goes on from there. */
  ghost predicate Walked(d: Disk, f: Format, root: Lba, x: Lba) {
    exists path :: IsTrek(d, f, path) && path[0] == root && path[|path| - 1] == x
  }

  /** A walk comes to `y`, or something it comes to points at it. */
  ghost predicate Touched(d: Disk, f: Format, root: Lba, y: Lba) {
    Walked(d, f, root, y) ||
        exists x: Lba, l :: Walked(d, f, root, x) && x < |d| && Followed(f, l) && At(d[x], l) == y != 0
  }

  lemma RootIsWalked(d: Disk, f: Format, root: Lba)
    ensures Walked(d, f, root, root)
  {
    assert IsTrek(d, f, [root]);
  }

  lemma OneStepOn(d: Disk, f: Format, root: Lba, x: Lba, l: Link)
    requires Walked(d, f, root, x) && x < |d| && Followed(f, l) && At(d[x], l) != 0
    ensures Touched(d, f, root, At(d[x], l))
    ensures !IsLeaf(l) ==> Walked(d, f, root, At(d[x], l))
  {
    var y := At(d[x], l);
    if !IsLeaf(l) {
      var path :| IsTrek(d, f, path) && path[0] == root && path[|path| - 1] == x;
      var more := path + [y];
      assert StepsTo(d, f, x, y);
      forall i | 0 <= i < |more| - 1
        ensures StepsTo(d, f, more[i], more[i + 1])
      {
        if i < |path| - 1 { assert StepsTo(d, f, path[i], path[i + 1]); }
      }
      assert IsTrek(d, f, more);
    }
  }

  /** Pointer `l` of `x` names nothing, or something marked, whose own pointers are looked
      into unless it is a leaf. */
  ghost predicate Settled(d: Disk, f: Format, marked: set<Lba>, inner: set<Lba>, x: Lba, l: Link) {
    x < |d| && (Followed(f, l) && At(d[x], l) != 0 ==> At(d[x], l) in marked && (!IsLeaf(l) ==> At(d[x], l) in inner))
  }

  /** Nothing a walk comes to is outside a set every pointer of which is settled. */
  lemma {:induction false} TrekStaysInside(d: Disk, f: Format, marked: set<Lba>, inner: set<Lba>, path: seq<Lba>)
    requires IsTrek(d, f, path) && path[0] in inner && forall x: Lba, l :: x in inner ==>
              Settled(d, f, marked, inner, x, l)
    ensures path[|path| - 1] in inner
    decreases |path|
  {
    if |path| > 1 {
      assert StepsTo(d, f, path[0], path[0 + 1]);
      var l :| Followed(f, l) && !IsLeaf(l) && At(d[path[0]], l) == path[1];
      assert Settled(d, f, marked, inner, path[0], l);
      var rest := path[1..];
      forall i | 0 <= i < |rest| - 1
        ensures StepsTo(d, f, rest[i], rest[i + 1])
      {
        assert StepsTo(d, f, path[i + 1], path[i + 1 + 1]);
      }
      TrekStaysInside(d, f, marked, inner, rest);
    }
  }

  lemma AllIsMarked(d: Disk, f: Format, root: Lba, marked: set<Lba>, inner: set<Lba>)
    requires root in inner && inner <= marked && forall x: Lba, l :: x in inner ==> Settled(d, f, marked, inner, x, l)
    ensures forall y: Lba :: Touched(d, f, root, y) ==> y in marked
  {
    forall x: Lba | Walked(d, f, root, x)
      ensures x in inner
    {
      var path :| IsTrek(d, f, path) && path[0] == root && path[|path| - 1] == x;
      TrekStaysInside(d, f, marked, inner, path);
    }
    forall y: Lba | Touched(d, f, root, y)
      ensures y in marked
    {
      if !Walked(d, f, root, y) {
        var x: Lba, l :| Walked(d, f, root, x) && x < |d| && Followed(f, l) && At(d[x], l) == y != 0;
        assert Settled(d, f, marked, inner, x, l);
      }
    }
  }

  /** The file's blocks deliver its bytes, whatever they are. */
  ghost predicate FileReads(d: Disk, f: Format, c: FileChain)
    requires f.payload > 0
  {
    exists s :: Holds(d, f, c, s)
  }

  // ---- Findings ------------------------------------------------------------------------------------

  const MAX_FINDINGS: nat := 4096

  /** How a directory's cache can disagree with its chains. */
  datatype Discrepancy =
    | Extra(entry: Lba)
    | Duplicate(entry: Lba)
    | Missing(entry: Lba)
    | NameMismatch(entry: Lba)
    | SizeMismatch(entry: Lba)
    | TypeMismatch(entry: Lba)

  datatype Finding =
    | Unreadable(lba: Lba, error: Error)
    | Checksum(lba: Lba)
    | DoublyReachable(lba: Lba, from: Lba)
    | OwnKeyMismatch(lba: Lba, found: Lba)
    | ParentMismatch(lba: Lba, found: Lba, expected: Lba)
    | EmptyName(lba: Lba)
    | NameTooLong(lba: Lba, len: nat, max: nat)
    | WrongChainSlot(lba: Lba, dir: Lba, found: nat, hashesTo: nat)
    | LinkTargetMissing(lba: Lba)
    | DircacheStale(dir: Lba, detail: Discrepancy)
    | BitmapIncomplete(covered: nat, count: nat)
    | BitmapInvalid
    | OrphanBlock(lba: Lba)
    | ReachableButFree(lba: Lba)

  // ---- A cache and the chains it copies ---------------------------------------------------------------

  /** How long an entry says it is: files and links to files alone have a length. */
  function ByteSize(b: Block): nat
    requires b.Header?
  {
    if b.kind.File? || b.kind.LinkFile? then b.size else 0
  }

  /** The record says of its entry what the validator compares: the name, upper and lower
      case aside, the size and the type. Comment, protection and date are not compared. */
  predicate Describes(d: Disk, f: Format, r: Record) {
    && r.entry < |d| && d[r.entry].Header?
    && SameName(r.name, d[r.entry].name, f.intl) && r.size == ByteSize(d[r.entry]) && r.kind == d[r.entry].kind
  }

  /** The `i`th record is the first of its entry, and describes it. */
  ghost predicate RightAt(d: Disk, f: Format, entries: seq<Lba>, records: seq<Record>, i: nat)
    requires i < |records|
  {
    && records[i].entry in entries && Describes(d, f, records[i])
    && forall j :: 0 <= j < i ==> records[j].entry != records[i].entry
  }

  ghost predicate HasRecord(records: seq<Record>, entry: Lba) {
    exists i :: 0 <= i < |records| && records[i].entry == entry
  }

  /** The records are, one for one and in some order, records of the entries. */
  ghost predicate Agrees(d: Disk, f: Format, entries: seq<Lba>, records: seq<Record>) {
    && (forall i :: 0 <= i < |records| ==> RightAt(d, f, entries, records, i))
    && forall k :: 0 <= k < |entries| ==> HasRecord(records, entries[k])
  }

  /** A cache that mirrors its directory agrees with it: right after a refresh the validator
      has nothing to say of it. */
  lemma MirrorAgrees(d: Disk, f: Format, s: Shape, dir: Lba, entries: seq<Lba>, blocks: seq<Lba>)
    requires MirrorsIn(d, f, s, dir, entries, blocks) && forall e :: e in entries ==> |d[e].name| <= 255
    ensures Agrees(d, f, entries, RecordsIn(d, blocks))
  {
    hide InWalkOrder, IsCacheOf, Fitting, SameName, RecordOf;
    var records := RecordsIn(d, blocks);
    forall i | 0 <= i < |records|
      ensures RightAt(d, f, entries, records, i) && records[i].entry == entries[i]
    {
      assert entries[i] in entries;
      RecordIs(d, f, entries, i);
      forall j | 0 <= j < i
        ensures records[j].entry == entries[j]
      {
        assert entries[j] in entries;
        RecordIs(d, f, entries, j);
      }
    }
    assert forall k :: 0 <= k < |entries| ==> records[k].entry == entries[k];
  }

  lemma RecordIs(d: Disk, f: Format, entries: seq<Lba>, i: nat)
    requires AllHeaders(d, entries) && i < |entries| && entries[i] < |d| && d[entries[i]].Header?
              && |d[entries[i]].name| <= 255
    ensures RecordsFor(d, entries)[i].entry == entries[i] && entries[i] in entries
              && Describes(d, f, RecordsFor(d, entries)[i])
  {
    assert entries[i] in entries;
    CutIsWhole(d[entries[i]].name, f.intl);
    hide SameName, Cut;
  }

  lemma CutIsWhole(name: Bytes, intl: bool)
    requires |name| <= 255
    ensures SameName(Cut(name, 255), name, intl)
  {}

  /** What has been gathered of a directory: headers, each once, all of them marked. */
  ghost predicate Gathered(d: Disk, entries: seq<Lba>, marked: set<Lba>) {
    NoRepeats(entries) && forall e :: e in entries ==> e < |d| && d[e].Header? && e in marked
  }

  lemma NothingGathered(d: Disk, marked: set<Lba>)
    ensures Gathered(d, [], marked)
  {}

  lemma GatherMore(d: Disk, entries: seq<Lba>, marked: set<Lba>, h: Lba, isNew: bool, marked2: set<Lba>)
    requires Gathered(d, entries, marked) && marked <= marked2 && h < |d| && d[h].Header?
              && (isNew ==> h !in marked && h in marked2)
    ensures Gathered(d, if isNew then entries + [h] else entries, marked2)
  {
    if isNew { MoreInQueue(entries, h); }
  }

  // ---- What has been settled -------------------------------------------------------------------------

  /** The pointers a directory is still in the queue for. */
  predicate IsTable(l: Link) {
    l.Slot? || l.CacheHead?
  }

  /** Everything of `who` is settled, but the tables of `open`, the chain pointer of `last`
      and the bitmap's pages. */
  ghost predicate SettledBut(d: Disk, f: Format, marked: set<Lba>, inner: set<Lba>, who: set<Lba>, open: set<Lba>,
          last: Option<Lba>) {
    forall x: Lba, l: Link :: x in who && !l.Page? && !(x in open && IsTable(l)) && !(last == Some(x) && l.Chain?) ==>
        Settled(d, f, marked, inner, x, l)
  }

  lemma StaysSettled(d: Disk, f: Format, marked: set<Lba>, inner: set<Lba>, who: set<Lba>, open: set<Lba>,
          last: Option<Lba>, marked2: set<Lba>, inner2: set<Lba>)
    requires SettledBut(d, f, marked, inner, who, open, last) && marked <= marked2 && inner <= inner2
    ensures SettledBut(d, f, marked2, inner2, who, open, last)
  {
    hide At, Followed, IsLeaf;
    forall x: Lba, l: Link | x in who && !l.Page? && !(x in open && IsTable(l)) && !(last == Some(x) && l.Chain?)
      ensures Settled(d, f, marked2, inner2, x, l)
    {
      assert Settled(d, f, marked, inner, x, l);
    }
  }

  /** Bits set in words, as block numbers. */
  ghost function Marked(words: seq<Word>): set<Lba> {
    FreeBits(words, 32 * |words|)
  }

  // ---- Chains ----------------------------------------------------------------------------------------

  /** The extension blocks of a file and what they list are come to from its header. */
  lemma {:induction false} WalkIsWalked(d: Disk, f: Format, root: Lba, slots: nat, header: Lba, from: Lba,
          exts: seq<Lba>, data: seq<Lba>)
    requires Walks(d, slots, header, from, exts, data, 0) && (from != 0 ==> Walked(d, f, root, from))
    ensures forall x :: x in exts ==> Walked(d, f, root, x)
    ensures forall y :: y in data ==> Touched(d, f, root, y)
    decreases |exts|
  {
    if exts != [] {
      hide Walked, Touched;
      var list := d[from].data;
      if d[from].next != 0 { OneStepOn(d, f, root, from, Ext); }
      WalkIsWalked(d, f, root, slots, header, d[from].next, exts[1..], data[|list|..]);
      forall y | y in data
        ensures Touched(d, f, root, y)
      {
        var i :| 0 <= i < |data| && data[i] == y;
        if i < |list| {
          assert list[i] == y;
          assert list[i] in list;
          OneStepOn(d, f, root, from, Datum(i));
        } else {
          assert data[|list|..][i - |list|] == y;
        }
      }
      assert forall x :: x in exts ==> x == exts[0] || x in exts[1..];
    }
  }

  lemma {:induction false} WalkLists(d: Disk, slots: nat, header: Lba, from: Lba, exts: seq<Lba>, data: seq<Lba>)
    requires Walks(d, slots, header, from, exts, data, 0)
    ensures from == if exts == [] then 0 else exts[0]
    ensures forall x :: x in exts ==>
              x < |d| && d[x].List? && (d[x].next == 0 || d[x].next in exts) && forall y :: y in d[x].data ==> y in data
    decreases |exts|
  {
    if exts != [] {
      WalkLists(d, slots, header, d[from].next, exts[1..], data[|d[from].data|..]);
      assert forall x :: x in exts ==> x == exts[0] || x in exts[1..];
      forall y | y in d[from].data
        ensures y in data
      {
        var i :| 0 <= i < |d[from].data| && d[from].data[i] == y;
        assert data[i] == y;
      }
    }
  }

  lemma ChainIsTouched(d: Disk, f: Format, root: Lba, c: FileChain)
    requires f.payload > 0 && IsChain(d, f, c) && Walked(d, f, root, c.header)
    ensures forall x :: x in c.extensions ==> Walked(d, f, root, x) && x < |d| && d[x].List?
    ensures forall y :: y in c.blocks ==> Touched(d, f, root, y)
  {
    var own, rest := d[c.header].table, c.blocks[|d[c.header].table|..];
    WalkLists(d, f.slots, c.header, d[c.header].ext, c.extensions, rest);
    hide Walked, Touched, CeilDiv, Walks;
    if d[c.header].ext != 0 { OneStepOn(d, f, root, c.header, Ext); }
    WalkIsWalked(d, f, root, f.slots, c.header, d[c.header].ext, c.extensions, rest);
    forall y | y in c.blocks
      ensures Touched(d, f, root, y)
    {
      var i :| 0 <= i < |c.blocks| && c.blocks[i] == y;
      if i < |own| {
        assert own[i] == y && own[i] in own;
        OneStepOn(d, f, root, c.header, Datum(i));
      } else {
        assert rest[i - |own|] == y;
      }
    }
  }

  /** With all of it marked a file has nothing more to settle. */
  lemma ChainIsSettled(d: Disk, f: Format, marked: set<Lba>, inner: set<Lba>, c: FileChain)
    requires f.payload > 0 && IsChain(d, f, c) && SetOf(c.extensions) <= inner <= marked
              && forall y :: y in c.blocks ==> y in marked
    ensures forall l: Link :: l.Datum? || l.Ext? ==> Settled(d, f, marked, inner, c.header, l)
    ensures forall x: Lba, l: Link :: x in c.extensions ==> Settled(d, f, marked, inner, x, l)
  {
    var own, rest := d[c.header].table, c.blocks[|d[c.header].table|..];
    WalkLists(d, f.slots, c.header, d[c.header].ext, c.extensions, rest);
    hide Walks, CeilDiv;
    assert forall y :: y in rest ==> y in c.blocks;
    assert forall i :: 0 <= i < |own| ==> own[i] == c.blocks[i];
  }

  lemma CacheIsWalked(d: Disk, f: Format, root: Lba, dir: Lba, blocks: seq<Lba>)
    requires f.dircache && IsCacheOf(d, dir, blocks) && Walked(d, f, root, dir)
    ensures forall x :: x in blocks ==> Walked(d, f, root, x) && x < |d| && d[x].Cache?
  {
    forall x | x in blocks
      ensures Walked(d, f, root, x) && x < |d| && d[x].Cache?
    {
      var i :| 0 <= i < |blocks| && blocks[i] == x;
      CacheWalkedTo(d, f, root, dir, blocks, i);
    }
  }

  lemma {:induction false} CacheWalkedTo(d: Disk, f: Format, root: Lba, dir: Lba, blocks: seq<Lba>, i: nat)
    requires f.dircache && IsCacheOf(d, dir, blocks) && Walked(d, f, root, dir) && i < |blocks|
    ensures Walked(d, f, root, blocks[i]) && blocks[i] < |d| && d[blocks[i]].Cache?
    decreases i
  {
    assert CacheStep(d, dir, blocks[i], NextIn(blocks, i, 0));
    hide Walked;
    if i == 0 {
      OneStepOn(d, f, root, dir, CacheHead);
    } else {
      CacheWalkedTo(d, f, root, dir, blocks, i - 1);
      assert CacheStep(d, dir, blocks[i - 1], NextIn(blocks, i - 1, 0));
      OneStepOn(d, f, root, blocks[i - 1], CacheNext);
    }
  }

  lemma CacheIsSettled(d: Disk, f: Format, marked: set<Lba>, inner: set<Lba>, dir: Lba, blocks: seq<Lba>)
    requires IsCacheOf(d, dir, blocks) && SetOf(blocks) <= inner <= marked
    ensures Settled(d, f, marked, inner, dir, CacheHead)
    ensures forall x: Lba, l :: x in blocks ==> Settled(d, f, marked, inner, x, l)
  {
    CacheHeadSettled(d, f, marked, inner, dir, blocks);
    hide Settled, IsCacheOf;
    forall x: Lba, l | x in blocks
      ensures Settled(d, f, marked, inner, x, l)
    {
      var i :| 0 <= i < |blocks| && blocks[i] == x;
      CacheBlockSettled(d, f, marked, inner, dir, blocks, i, l);
    }
  }

  lemma CacheHeadSettled(d: Disk, f: Format, marked: set<Lba>, inner: set<Lba>, dir: Lba, blocks: seq<Lba>)
    requires IsCacheOf(d, dir, blocks) && SetOf(blocks) <= inner <= marked
    ensures Settled(d, f, marked, inner, dir, CacheHead)
  {
    hide CacheStep, At;
    if blocks != [] { assert blocks[0] in SetOf(blocks); }
  }

  lemma CacheBlockSettled(d: Disk, f: Format, marked: set<Lba>, inner: set<Lba>, dir: Lba, blocks: seq<Lba>, i: nat,
          l: Link)
    requires IsCacheOf(d, dir, blocks) && SetOf(blocks) <= inner <= marked && i < |blocks|
    ensures Settled(d, f, marked, inner, blocks[i], l)
  {
    assert CacheStep(d, dir, blocks[i], NextIn(blocks, i, 0));
    hide Strung, NoRepeats;
    if i + 1 < |blocks| { assert blocks[i + 1] in SetOf(blocks); }
  }

  class Validator {
    const v: Volume
    var words: seq<Word>
    var count: nat
    var findings: seq<Finding>
    var truncated: bool
    /** The marked blocks whose pointers are, or are going to be, looked into. */
    ghost var inner: set<Lba>
    /** The directories whose tables have been walked, one after another. */
    ghost var visits: seq<Lba>

    constructor (v: Volume)
      ensures this.v == v && Valid() && fresh(this)
      ensures Clean() && Marked(words) == {} && inner == {} && visits == []
    {
      this.v := v;
      words := seq(|v.src.blocks| / 32 + 1, i => 0);
      count := 0;
      findings := [];
      truncated := false;
      inner := {};
      visits := [];
      new;
      NothingMarked(|v.src.blocks| / 32 + 1);
    }

    /** Nothing wrong at all. */
    predicate Clean()
      reads this
    {
      findings == [] && !truncated
    }

    /** What is marked has been come to, and what is looked into is a block of the volume. */
    ghost predicate Valid()
      reads this, v.src
    {
      && count == |Marked(words)| && |v.src.blocks| < 32 * |words|
      && inner <= Marked(words)
      && (forall x: Lba :: x in Marked(words) ==> Touched(v.src.blocks, v.f, v.root, x))
      && (forall x: Lba :: x in inner ==>
          x < |v.src.blocks| && Walked(v.src.blocks, v.f, v.root, x) && (v.src.blocks[x].Root? ==> x == v.root))
    }

    method Report(finding: Finding)
      requires Valid()
      modifies this`findings, this`truncated
      ensures Valid() && !Clean()
    {
      hide Touched, Walked;
      if |findings| < MAX_FINDINGS {
        findings := findings + [finding];
      } else {
        truncated := true;
      }
    }

    /** Mark `lba`; false if it was already marked. */
    method Set(lba: Lba) returns (isNew: bool)
      requires Valid() && Touched(v.src.blocks, v.f, v.root, lba)
      modifies this`words, this`count
      ensures Valid() && (isNew <==> lba < 32 * |words| && lba !in old(Marked(words))) && |words| == |old(words)|
      ensures Marked(words) == if isNew then old(Marked(words)) + {lba} else old(Marked(words))
      ensures count == old(count) + if isNew then 1 else 0
    {
      hide Touched, Walked;
      if lba / 32 < |words| && !FreeBit(words, lba) {
        MarkedMore(words, lba);
        words := Raised(words, lba);
        count := count + 1;
        return true;
      }
      isNew := false;
    }

    /** Mark a block something points to, reporting a pointer out of the volume and a block
        something else has claimed. */
    method Mark(lba: Lba, from: Lba) returns (isNew: bool)
      requires Valid() && Touched(v.src.blocks, v.f, v.root, lba)
      modifies this`words, this`count, this`findings, this`truncated
      ensures Valid() && (Clean() <==> old(Clean()) && isNew && lba < |v.src.blocks|) && |words| == |old(words)|
      ensures isNew <==> lba < |v.src.blocks| && lba !in old(Marked(words))
      ensures old(Marked(words)) <= Marked(words) && old(count) <= count
      ensures lba < |v.src.blocks| ==> lba in Marked(words)
      ensures lba >= |v.src.blocks| ==> !Clean()
    {
      hide Touched, Walked;
      if lba >= |v.src.blocks| {
        Report(Unreadable(from, OutOfRange(lba)));
        return false;
      }
      isNew := Set(lba);
      if !isNew {
        Report(DoublyReachable(lba, from));
      }
    }

    /** How far a step that walks no table can have changed what is marked. */
    twostate predicate Grew()
      reads this
    {
      GrewToo() && visits == old(visits)
    }

    twostate predicate GrewToo()
      reads this
    {
      && |words| == |old(words)| && old(Marked(words)) <= Marked(words) && old(inner) <= inner && old(count) <= count
      && (Clean() ==> old(Clean()))
    }

    /** No directory has been come to. */
    twostate predicate NoNewDirectory()
      reads this`inner, v.src
    {
      forall x :: IsInnerDirectory(x) ==> x in old(inner)
    }

    /** Everything looked into is settled, but for `fresh`, for the tables of `open` and the
        chain pointer of `last`. */
    ghost predicate SettledSoFar(newcomer: set<Lba>, open: set<Lba>, last: Option<Lba>)
      reads this, v.src
    {
      Clean() ==> SettledBut(v.src.blocks, v.f, Marked(words), inner, inner - newcomer, open, last)
    }

    /** Mark every block of a list that something the walk came to points at. */
    method MarkAll(list: seq<Lba>, from: Lba)
      requires Valid() && forall y :: y in list ==> Touched(v.src.blocks, v.f, v.root, y)
      modifies this`words, this`count, this`findings, this`truncated
      ensures Valid() && Grew()
      ensures forall y :: y in list && (y < |v.src.blocks| || Clean()) ==> y in Marked(words)
    {
      hide Touched, Walked;
      var i := 0;
      while i < |list|
        invariant 0 <= i <= |list| && Valid() && Grew()
        invariant forall k :: 0 <= k < i && (list[k] < |v.src.blocks| || Clean()) ==> list[k] in Marked(words)
      {
        assert list[i] in list;
        var isNew := Mark(list[i], from);
        i := i + 1;
      }
    }

    method ValidateFile(h: Lba, ghost open: set<Lba>, ghost last: Option<Lba>)
      requires Valid() && h in inner && v.f.payload > 0 && SettledSoFar({h}, open, last)
      modifies this
      ensures Valid() && Grew() && SettledSoFar({h}, open, last) && NoNewDirectory()
      ensures Clean() ==> forall l: Link :: l.Datum? || l.Ext? ==>
                Settled(v.src.blocks, v.f, Marked(words), inner, h, l)
    {
      hide Touched, Walked, IsChain, SettledBut, Settled;
      ghost var was := Marked(words);
      var chain := v.ReadFileChain(h);
      match chain {
        case Err(e) => Report(Unreadable(h, e));
        case Ok(c) =>
          ChainIsTouched(v.src.blocks, v.f, v.root, c);
          WalkedIsTouched(v.src.blocks, v.f, v.root, c.extensions);
          MarkAll(c.extensions, h);
          MarkAll(c.blocks, h);
          if Clean() {
            StaysSettled(v.src.blocks, v.f, was, inner, inner - {h}, open, last, Marked(words), inner);
            ChainIsSettled(v.src.blocks, v.f, Marked(words), inner + SetOf(c.extensions), c);
          }
          LookInto(c.extensions, {h}, open, last);
          CheckContents(c);
      }
    }

    /** An OFS data block says whose it is and which; an FFS one says nothing. */
    method CheckContents(c: FileChain)
      requires Valid() && v.f.payload > 0 && IsChain(v.src.blocks, v.f, c)
      modifies this`findings, this`truncated
      ensures Valid() && (Clean() <==> old(Clean()) && (v.f.ffs || FileReads(v.src.blocks, v.f, c)))
    {
      hide Touched, Walked, Walks;
      HandsOrNot(v.src.blocks, v.f, c);
      if v.f.ffs {
        return;
      }
      var bytes := v.ReadChain(c);
      match bytes {
        case Err(e) => Report(Unreadable(c.header, e));
        case Ok(s) => assert Holds(v.src.blocks, v.f, c, s);
      }
    }

    /** Where `lba` is among the entries. */
    method Position(entries: seq<Lba>, lba: Lba) returns (at: Option<nat>)
      requires NoRepeats(entries)
      ensures if at.Some? then at.value < |entries| && entries[at.value] == lba &&
                forall k :: 0 <= k < |entries| && entries[k] == lba ==> k == at.value
              else lba !in entries
    {
      var i := 0;
      while i < |entries|
        invariant 0 <= i <= |entries| && lba !in entries[..i]
      {
        if entries[i] == lba {
          return Some(i);
        }
        i := i + 1;
      }
      at := None;
    }

    /** Compare one record with the entry it is of. */
    method CompareRecord(dir: Lba, r: Record)
      requires Valid() && r.entry < |v.src.blocks| && v.src.blocks[r.entry].Header?
      modifies this`findings, this`truncated
      ensures Valid() && (Clean() <==> old(Clean()) && Describes(v.src.blocks, v.f, r))
    {
      hide Touched, Walked, SameName;
      var b := v.src.blocks[r.entry];
      if !SameName(r.name, b.name, v.f.intl) {
        Report(DircacheStale(dir, NameMismatch(r.entry)));
      }
      if r.size != ByteSize(b) {
        Report(DircacheStale(dir, SizeMismatch(r.entry)));
      }
      if r.kind != b.kind {
        Report(DircacheStale(dir, TypeMismatch(r.entry)));
      }
    }

    /** Compare a directory's cache with the entries its chains led to: nothing is reported
        exactly when they agree. */
    method CompareCache(dir: Lba, entries: seq<Lba>, records: seq<Record>)
      requires Valid() && NoRepeats(entries) && forall e :: e in entries ==>
                e < |v.src.blocks| && v.src.blocks[e].Header?
      modifies this`findings, this`truncated
      ensures Valid() && (Clean() <==> old(Clean()) && Agrees(v.src.blocks, v.f, entries, records))
    {
      hide Touched, Walked, Describes, NoRepeats;
      var covered := seq(|entries|, i => false);
      var i := 0;
      while i < |records|
        invariant 0 <= i <= |records| && |covered| == |entries| && Valid()
        invariant forall k :: 0 <= k < |entries| ==> (covered[k] <==> HasRecord(records[..i], entries[k]))
        invariant Clean() <==> old(Clean()) && forall j :: 0 <= j < i ==>
                  RightAt(v.src.blocks, v.f, entries, records, j)
      {
        var at := Position(entries, records[i].entry);
        RecordSeen(v.src.blocks, v.f, entries, records, i, at, covered);
        match at {
          case None =>
            Report(DircacheStale(dir, Extra(records[i].entry)));
          case Some(k) =>
            assert entries[k] in entries;
            if covered[k] {
              Report(DircacheStale(dir, Duplicate(records[i].entry)));
            } else {
              covered := covered[k := true];
              CompareRecord(dir, records[i]);
            }
        }
        i := i + 1;
      }
      assert records[..i] == records;
      ReportMissing(dir, entries, covered);
    }

    method ReportMissing(dir: Lba, entries: seq<Lba>, covered: seq<bool>)
      requires Valid() && |covered| == |entries|
      modifies this`findings, this`truncated
      ensures Valid() && (Clean() <==> old(Clean()) && forall k :: 0 <= k < |entries| ==> covered[k])
    {
      hide Touched, Walked;
      var i := 0;
      while i < |entries|
        invariant 0 <= i <= |entries| && Valid() && (Clean() <==> old(Clean()) && forall k :: 0 <= k < i ==> covered[k])
      {
        if !covered[i] {
          Report(DircacheStale(dir, Missing(entries[i])));
        }
        i := i + 1;
      }
    }

    /** The blocks of a directory's cache, on a volume that has caches, and its records
        against the entries the directory's chains led to. */
    method ValidateDircache(dir: Lba, entries: seq<Lba>, ghost open: set<Lba>)
      requires Valid() && dir in inner && SettledSoFar({}, open, None) && Gathered(v.src.blocks, entries, Marked(words))
      modifies this
      ensures Valid() && Grew() && SettledSoFar({}, open, None) && NoNewDirectory()
      ensures v.f.dircache && Clean() ==>
                exists c :: IsCacheOf(v.src.blocks, dir, c)
                      && Agrees(v.src.blocks, v.f, entries, RecordsIn(v.src.blocks, c))
      ensures Clean() ==> Settled(v.src.blocks, v.f, Marked(words), inner, dir, CacheHead)
    {
      hide Touched, Walked, IsCacheOf, SettledBut, Settled, Agrees, NoRepeats;
      if !v.f.dircache {
        NoCacheToSettle(v.src.blocks, v.f, Marked(words), inner, dir);
        return;
      }
      var cache := v.ReadDircache(dir);
      match cache {
        case Err(e) => Report(Unreadable(dir, e));
        case Ok(c) =>
          MarkCache(dir, c.0, open);
          CompareCache(dir, entries, c.1);
      }
    }

    /** Every block of the cache, from here on looked into. */
    method MarkCache(dir: Lba, blocks: seq<Lba>, ghost open: set<Lba>)
      requires Valid() && dir in inner && v.f.dircache && IsCacheOf(v.src.blocks, dir, blocks)
                && SettledSoFar({}, open, None)
      modifies this
      ensures Valid() && Grew() && SettledSoFar({}, open, None) && NoNewDirectory()
      ensures Clean() ==> Settled(v.src.blocks, v.f, Marked(words), inner, dir, CacheHead)
    {
      hide Touched, Walked, IsCacheOf, SettledBut, Settled;
      ghost var was := Marked(words);
      CacheIsWalked(v.src.blocks, v.f, v.root, dir, blocks);
      WalkedIsTouched(v.src.blocks, v.f, v.root, blocks);
      MarkAll(blocks, dir);
      if Clean() {
        StaysSettled(v.src.blocks, v.f, was, inner, inner - {}, open, None, Marked(words), inner);
      }
      CacheIsSettled(v.src.blocks, v.f, Marked(words) + inner + SetOf(blocks), inner + SetOf(blocks), dir, blocks);
      InThere(blocks, Marked(words));
      assert Marked(words) + inner + SetOf(blocks) == Marked(words);
      LookInto(blocks, {}, open, None);
    }

    /** Everything hanging off one entry: its content, its comment and, for a directory, a
        place in the queue. */
    method ValidateEntry(h: Lba, b: Block, queue: seq<Lba>, ghost open: set<Lba>) returns (more: seq<Lba>)
      requires Valid() && h in inner && v.src.blocks[h] == b && b.Header? && v.f.payload > 0
                && SettledSoFar({h}, open, None)
      modifies this
      ensures Valid() && Grew() && more == (if b.kind.Directory? then queue + [h] else queue) && NoNewDirectory()
      ensures SettledSoFar({}, open + {h}, Some(h)) && (!b.kind.Directory? ==> SettledSoFar({}, open, Some(h)))
    {
      hide Touched, Walked, SettledBut, Settled;
      more := queue;
      match b.kind {
        case Directory => more := queue + [h];
        case File => ValidateFile(h, open, None);
        case SoftLink =>
        case LinkFile => if b.realEntry == 0 { Report(LinkTargetMissing(h)); }
        case LinkDir => if b.realEntry == 0 { Report(LinkTargetMissing(h)); }
      }
      ghost var was := Marked(words);
      ValidateComment(h, b, open);
      if Clean() {
        if b.kind.File? { ContentStaysSettled(v.src.blocks, v.f, was, Marked(words), inner, h); }
        EntrySettled(v.src.blocks, v.f, Marked(words), inner, open, h);
      }
      assert inner - {} == inner;
    }

    method ValidateComment(h: Lba, b: Block, ghost open: set<Lba>)
      requires Valid() && h in inner && v.src.blocks[h] == b && b.Header? && SettledSoFar({h}, open, None)
      modifies this`words, this`count, this`findings, this`truncated
      ensures Valid() && Grew() && SettledSoFar({h}, open, None)
      ensures Clean() ==> Settled(v.src.blocks, v.f, Marked(words), inner, h, Note)
    {
      hide Touched, Walked, SettledBut;
      if b.note == 0 {
        return;
      }
      ghost var was := Marked(words);
      OneStepOn(v.src.blocks, v.f, v.root, h, Note);
      var isNew := Mark(b.note, h);
      if isNew {
        var d := v.src.blocks;
        if b.note < |d| && !(d[b.note].Comment? && d[b.note].key == b.note && d[b.note].owner == h) {
          Report(Unreadable(b.note, WrongBlockType(b.note)));
        }
      }
      if Clean() {
        StaysSettled(v.src.blocks, v.f, was, inner, inner - {h}, open, None, Marked(words), inner);
      }
    }

    ghost predicate IsInnerDirectory(x: Lba)
      reads this`inner, v.src
    {
      x in inner && Unfolds(v.src.blocks, x)
    }

    /** The directories put in the queue are those newly come to: they were not marked
        before, and none is put there twice. */
    ghost predicate Queued(queue: seq<Lba>, more: seq<Lba>, was: set<Lba>, counted: nat, inside: set<Lba>)
      reads this, v.src
    {
      QueuedBy(v.src.blocks, queue, more, was, Marked(words), counted, count, inside, inner)
    }

    static ghost predicate QueuedBy(d: Disk, queue: seq<Lba>, more: seq<Lba>, was: set<Lba>, marked: set<Lba>,
            counted: nat, count: nat,
              inside: set<Lba>, inner: set<Lba>) {
      && queue <= more && |more| + counted <= |queue| + count && was <= marked && inside <= inner <= marked
      && (forall x :: x in more ==> x in queue || (x !in was && x in inner && Unfolds(d, x)))
      && (forall x :: x in inner && Unfolds(d, x) && x !in inside ==> x in more)
      && (NoRepeats(queue) && (forall x :: x in queue ==> x in was) ==> NoRepeats(more))
    }

    static predicate Unfolds(d: Disk, x: Lba) {
      x < |d| && IsDirectory(d[x])
    }

    static lemma NoneQueued(d: Disk, queue: seq<Lba>, was: set<Lba>, marked: set<Lba>, counted: nat, count: nat,
            inside: set<Lba>, inner: set<Lba>)
      requires counted <= count && was <= marked && inside <= inner <= marked &&
                forall x :: x in inner && Unfolds(d, x) ==> x in inside
      ensures QueuedBy(d, queue, queue, was, marked, counted, count, inside, inner)
    {}

    static lemma OneQueued(d: Disk, queue: seq<Lba>, h: Lba, was: set<Lba>, marked: set<Lba>, counted: nat, count: nat,
            inside: set<Lba>, inner: set<Lba>)
      requires counted < count && was <= marked && inside <= inner <= marked && h !in was && h in inner
      requires forall x :: x in inner && Unfolds(d, x) ==> x in inside || x == h
      ensures QueuedBy(d, queue, if Unfolds(d, h) then queue + [h]
                else queue, was, marked, counted, count, inside, inner)
    {
      if Unfolds(d, h) && NoRepeats(queue) && forall x :: x in queue ==> x in was { MoreInQueue(queue, h); }
    }

    /** What one step puts in the queue, and the next. */
    static lemma QueuedOn(d: Disk, queue: seq<Lba>, mid: seq<Lba>, more: seq<Lba>, was: set<Lba>, midway: set<Lba>,
            marked: set<Lba>,
                          counted: nat, recounted: nat, count: nat, inside: set<Lba>, between: set<Lba>,
                              inner: set<Lba>)
      requires QueuedBy(d, queue, mid, was, midway, counted, recounted, inside, between)
                && QueuedBy(d, mid, more, midway, marked, recounted, count, between, inner)
      ensures QueuedBy(d, queue, more, was, marked, counted, count, inside, inner)
    {
      hide NoRepeats, Unfolds;
      if NoRepeats(queue) && forall x :: x in queue ==> x in was {
        assert forall x :: x in mid ==> x in midway;
      }
    }

    /** One entry of a chain: marked for the first time, or not looked into again. */
    method Visit(dir: Lba, i: nat, h: Lba, b: Block, queue: seq<Lba>, ghost last: Option<Lba>)
            returns (more: seq<Lba>, isNew: bool)
      requires Valid() && dir in inner && h < |v.src.blocks| && v.src.blocks[h] == b && b.Header? && v.f.payload > 0
                && v.f.slots > 0
      requires Walked(v.src.blocks, v.f, v.root, h) && SettledSoFar({}, SetOf(queue) + {dir}, last)
      requires Clean() && last.None? ==> At(v.src.blocks[dir], Slot(i)) == h
      requires Clean() && last.Some? ==> last.value in inner && At(v.src.blocks[last.value], Chain) == h
      requires Clean() && last.Some? ==> Settled(v.src.blocks, v.f, Marked(words), inner, dir, Slot(i))
      modifies this
      ensures Valid() && Grew() && SettledSoFar({}, SetOf(more) + {dir}, Some(h))
                && Queued(queue, more, old(Marked(words)), old(count), old(inner))
      ensures Clean() ==> h in inner && Settled(v.src.blocks, v.f, Marked(words), inner, dir, Slot(i))
      ensures isNew ==> h !in old(Marked(words)) && h in Marked(words)
    {
      hide Walked, Touched, SettledBut, Settled, QueuedBy, SetOf, Unfolds, Marked;
      ghost var was, counted, inside := Marked(words), count, inner;
      isNew := Enter(dir, i, h, SetOf(queue) + {dir}, last);
      if !isNew {
        Report(DoublyReachable(h, dir));
        NoneQueued(v.src.blocks, queue, was, Marked(words), counted, count, inside, inner);
        return queue, false;
      }
      ghost var marked, here := Marked(words), inner;
      CheckEntry(dir, i, h, b);
      more := ValidateEntry(h, b, queue, SetOf(queue) + {dir});
      KindUnfolds(v.src.blocks, h);
      OneQueued(v.src.blocks, queue, h, was, Marked(words), counted, count, inside, inner);
      MoreInQueue(queue, h);
      assert SetOf(queue) + {h} + {dir} == SetOf(queue) + {dir} + {h};
      if Clean() { OneStaysSettled(v.src.blocks, v.f, marked, here, Marked(words), inner, dir, Slot(i)); }
    }

    /** Mark an entry; from here on it is looked into. */
    method Enter(dir: Lba, i: nat, h: Lba, ghost open: set<Lba>, ghost last: Option<Lba>) returns (isNew: bool)
      requires Valid() && dir in inner && h < |v.src.blocks| && v.src.blocks[h].Header?
                && Walked(v.src.blocks, v.f, v.root, h)
                && SettledSoFar({}, open, last)
      requires Clean() && last.None? ==> At(v.src.blocks[dir], Slot(i)) == h
      requires Clean() && last.Some? ==> last.value in inner && At(v.src.blocks[last.value], Chain) == h
      requires Clean() && last.Some? ==> Settled(v.src.blocks, v.f, Marked(words), inner, dir, Slot(i))
      modifies this`words, this`count, this`inner
      ensures Valid() && Grew() && Clean() == old(Clean())
      ensures if isNew then h !in old(Marked(words)) && count == old(count) + 1 && inner == old(inner) + {h}
                && SettledSoFar({h}, open, None) else inner == old(inner)
      ensures isNew && Clean() ==> Settled(v.src.blocks, v.f, Marked(words), inner, dir, Slot(i))
    {
      hide Walked, Touched, SettledBut, Settled, At, Marked;
      ghost var was, inside := Marked(words), inner;
      if Clean() { NewcomerSettles(v.src.blocks, v.f, was, inside, open, last, dir, i, h, was + {h}); }
      WalkedIsTouched(v.src.blocks, v.f, v.root, [h]);
      assert h in [h];
      isNew := Set(h);
      if isNew {
        Admit(h);
        assert inner - {h} == inside;
      }
    }

    ghost method Admit(h: Lba)
      requires Valid() && h < |v.src.blocks| && v.src.blocks[h].Header? && Walked(v.src.blocks, v.f, v.root, h)
                && h in Marked(words)
      modifies this`inner
      ensures Valid() && inner == old(inner) + {h}
    {
      hide Walked, Touched;
      inner := inner + {h};
    }

    /** What an entry says of itself: its own number, its directory, a name that belongs in
        this chain. */
    method CheckEntry(dir: Lba, i: nat, h: Lba, b: Block)
      requires Valid() && b.Header? && v.f.slots > 0
      modifies this`findings, this`truncated
      ensures Valid() && (Clean() <==>
                old(Clean()) && b.own == h && b.parent == dir && 0 < |b.name| <= MaxName(v.f)
                && SlotIn(v.f, b.name) == i)
    {
      hide Touched, Walked, SlotIn;
      if b.own != h {
        Report(Finding.OwnKeyMismatch(h, b.own));
      }
      if b.parent != dir {
        Report(ParentMismatch(h, b.parent, dir));
      }
      if b.name == [] {
        Report(EmptyName(h));
      } else if |b.name| > MaxName(v.f) {
        Report(Finding.NameTooLong(h, |b.name|, MaxName(v.f)));
      } else if SlotIn(v.f, b.name) != i {
        Report(WrongChainSlot(h, dir, i, SlotIn(v.f, b.name)));
      }
    }

    /** One chain of a directory, every entry of it and everything the entries have. */
    method WalkSlot(dir: Lba, i: nat, head: Lba, queue: seq<Lba>, entries: seq<Lba>)
            returns (more: seq<Lba>, all: seq<Lba>)
      requires Valid() && dir in inner && head == At(v.src.blocks[dir], Slot(i)) && v.f.payload > 0 && v.f.slots > 0
      requires SettledSoFar({}, SetOf(queue) + {dir}, None) && Gathered(v.src.blocks, entries, Marked(words))
      modifies this
      ensures Gathered(v.src.blocks, all, Marked(words))
      ensures Valid() && Grew() && SettledSoFar({}, SetOf(more) + {dir}, None)
                && Queued(queue, more, old(Marked(words)), old(count), old(inner))
      ensures Clean() ==> Settled(v.src.blocks, v.f, Marked(words), inner, dir, Slot(i))
    {
      hide Touched, Walked, SettledBut, Settled, NoRepeats, QueuedBy, SetOf, Marked, Gathered;
      NoRepeatsNone();
      NoneQueued(v.src.blocks, queue, Marked(words), Marked(words), count, count, inner, inner);
      more, all := queue, entries;
      var next := head;
      var visited: seq<Lba> := [];
      ghost var last: Option<Lba> := None;
      if head != 0 { OneStepOn(v.src.blocks, v.f, v.root, dir, Slot(i)); }
      while next != 0
        invariant Valid() && Grew() && SettledSoFar({}, SetOf(more) + {dir}, last)
                  && Queued(queue, more, old(Marked(words)), old(count), old(inner))
        invariant next != 0 ==> Walked(v.src.blocks, v.f, v.root, next)
        invariant Gathered(v.src.blocks, all, Marked(words))
        invariant NoRepeats(visited) && forall x :: x in visited ==> x < |v.src.blocks|
        invariant Clean() && last.None? ==> next == head
        invariant Clean() && last.Some? ==> last.value in inner && At(v.src.blocks[last.value], Chain) == next
        invariant Clean() && last.Some? ==> Settled(v.src.blocks, v.f, Marked(words), inner, dir, Slot(i))
        decreases |v.src.blocks| - |visited|
      {
        if next in visited {
          Report(Unreadable(next, ChainCycle(next)));
          break;
        }
        var entry := v.EntryAt(next);
        match entry {
          case Err(e) =>
            Report(Unreadable(next, e));
            break;
          case Ok(b) =>
            VisitMore(visited, next, |v.src.blocks|);
            visited := visited + [next];
            if b.chain != 0 { OneStepOn(v.src.blocks, v.f, v.root, next, Chain); }
            ghost var mid, marked, counted, here := more, Marked(words), count, inner;
            var isNew;
            more, isNew := Visit(dir, i, next, b, more, last);
            GatherMore(v.src.blocks, all, marked, next, isNew, Marked(words));
            all := if isNew then all + [next] else all;
            QueuedOn(v.src.blocks, queue, mid, more, old(Marked(words)), marked, Marked(words), old(count), counted,
                count, old(inner), here, inner);
            last := if Clean() then Some(next) else last;
            next := b.chain;
        }
      }
      if Clean() && last.None? { NullIsSettled(v.src.blocks, v.f, Marked(words), inner, dir, Slot(i)); }
      if Clean() && last.Some? { ChainEnds(v.src.blocks, v.f, Marked(words), inner, SetOf(more) + {dir}, last.value); }
    }

    /** A directory taken out of the queue: its table, slot by slot, then its cache. */
    method ValidateDir(dir: Lba, queue: seq<Lba>) returns (more: seq<Lba>)
      requires Valid() && dir in inner && v.f.payload > 0 && v.f.slots > 0
                && SettledSoFar({}, SetOf(queue) + {dir}, None)
      modifies this
      ensures Valid() && GrewToo() && visits == old(visits) + [dir] && SettledSoFar({}, SetOf(more), None)
                && Queued(queue, more, old(Marked(words)), old(count), old(inner))
    {
      hide Walked, Touched, SettledBut, Settled, QueuedBy, SetOf, Marked, NoRepeats, Gathered, Agrees, IsCacheOf;
      NoneQueued(v.src.blocks, queue, Marked(words), Marked(words), count, count, inner, inner);
      more := queue;
      visits := visits + [dir];
      var entries: seq<Lba> := [];
      NothingGathered(v.src.blocks, Marked(words));
      var table := v.TableOf(dir);
      match table {
        case Err(e) => Report(Unreadable(dir, e));
        case Ok(heads) =>
          var i := 0;
          while i < |heads|
            invariant 0 <= i <= |heads| && Valid() && GrewToo() && visits == old(visits) + [dir]
                      && SettledSoFar({}, SetOf(more) + {dir}, None)
            invariant Queued(queue, more, old(Marked(words)), old(count), old(inner))
                      && Gathered(v.src.blocks, entries, Marked(words))
            invariant Clean() ==> forall k: nat :: k < i ==>
                      Settled(v.src.blocks, v.f, Marked(words), inner, dir, Slot(k))
          {
            ghost var marked, here, mid, counted := Marked(words), inner, more, count;
            more, entries := WalkSlot(dir, i, heads[i], more, entries);
            QueuedOn(v.src.blocks, queue, mid, more, old(Marked(words)), marked, Marked(words), old(count), counted,
                count, old(inner), here, inner);
            if Clean() { SlotsStaySettled(v.src.blocks, v.f, marked, here, Marked(words), inner, dir, i); }
            i := i + 1;
          }
          ghost var marked, here, counted := Marked(words), inner, count;
          ValidateDircache(dir, entries, SetOf(more) + {dir});
          NoneQueued(v.src.blocks, more, marked, Marked(words), counted, count, here, inner);
          QueuedOn(v.src.blocks, queue, more, more, old(Marked(words)), marked, Marked(words), old(count), counted,
              count, old(inner), here, inner);
          if Clean() {
            SlotsStaySettled(v.src.blocks, v.f, marked, here, Marked(words), inner, dir, |heads|);
            DirectoryCloses(v.src.blocks, v.f, Marked(words), inner, SetOf(more), dir);
          }
      }
    }

    /** The walk: everything the root leads to. Every directory it comes to is looked into,
        and none of them twice. */
    method WalkReachable()
      requires Valid() && Clean() && Marked(words) == {} && inner == {} && visits == [] && v.f.payload > 0
                && v.f.slots > 0
      requires v.root < |v.src.blocks| && v.src.blocks[v.root].Root?
      modifies this
      ensures Valid() && NoRepeats(visits) && v.root in visits && forall x :: x in visits <==> IsInnerDirectory(x)
      ensures Clean() ==> v.root in inner && forall x: Lba, l: Link :: x in inner && !l.Page? ==>
                Settled(v.src.blocks, v.f, Marked(words), inner, x, l)
    {
      hide Walked, Touched, Settled, QueuedBy, NoRepeats, Marked;
      RootIsWalked(v.src.blocks, v.f, v.root);
      WalkedIsTouched(v.src.blocks, v.f, v.root, [v.root]);
      assert v.root in [v.root];
      var isNew := Set(v.root);
      inner := {v.root};
      RootStarts(v.src.blocks, v.f, Marked(words), v.root);
      var queue: seq<Lba> := [v.root];
      NoRepeatsNone();
      MoreInQueue([], v.root);
      assert visits + queue == [] + [v.root];
      while queue != []
        invariant Valid() && v.root in inner && SettledSoFar({}, SetOf(queue), None)
        invariant NoRepeats(visits + queue) && forall x :: x in visits || x in queue <==> IsInnerDirectory(x)
        decreases 32 * |words| - count, |queue|
      {
        hide SettledBut;
        var dir, rest := queue[|queue| - 1], queue[..|queue| - 1];
        assert queue == rest + [dir];
        MoreInQueue(rest, dir);
        ghost var was, walked, counted, inside := Marked(words), visits, count, inner;
        queue := ValidateDir(dir, rest);
        MarkedFits(words);
        OneTaken(v.src.blocks, walked, rest, dir, queue, was, Marked(words), counted, count, inside, inner);
      }
      assert inner - {} == inner && SetOf(queue) == {};
      assert visits + queue == visits;
    }

    /** What the bitmap on the disk says of bit `i`; nothing where it has no sound page. */
    function FreeAt(pages: seq<Lba>, perPage: nat, i: nat): Option<bool>
      requires perPage > 0
      reads v.src
    {
      var p := Quotient(i, 32 * perPage);
      if p < |pages| && PageOk(v.src.blocks, perPage, pages[p])
          then Some(FreeBit(v.src.blocks[pages[p]].words, i - p * (32 * perPage))) else None
    }

    /** The bitmap's own blocks, then every bit of it against the walk. */
    method ValidateBitmap(reserved: nat, perPage: nat)
      requires Valid() && perPage > 0 && v.root < |v.src.blocks| && v.src.blocks[v.root].Root?
                && 0 !in v.src.blocks[v.root].pages
      modifies this`words, this`count, this`findings, this`truncated
      ensures Valid() && Grew()
      ensures Clean() ==> forall y :: y in v.src.blocks[v.root].pages ==> y in Marked(words)
      ensures Clean() ==> forall x: Lba :: reserved <= x < |v.src.blocks| ==>
                (x in Marked(words) <==>
                    !FreeOnDisk(v.src.blocks, Geometry(reserved, |v.src.blocks|, perPage, v.src.blocks[v.root].pages),
                    x))
    {
      hide Walked, Touched, FreeBit, FreeOnDisk;
      var pages := v.src.blocks[v.root].pages;
      PagesAreTouched(v.src.blocks, v.f, v.root);
      MarkAll(pages, v.root);
      CheckPages(pages, perPage);
      if reserved + |pages| * (32 * perPage) < |v.src.blocks| {
        Report(BitmapIncomplete(|pages| * (32 * perPage), |v.src.blocks|));
      }
      if !v.src.blocks[v.root].valid {
        Report(Finding.BitmapInvalid);
        return;
      }
      CompareBits(reserved, perPage, pages);
    }

    method CheckPages(pages: seq<Lba>, perPage: nat)
      requires Valid()
      modifies this`findings, this`truncated
      ensures Valid() && (Clean() ==> old(Clean()))
      ensures Clean() ==> forall i :: 0 <= i < |pages| ==> PageOk(v.src.blocks, perPage, pages[i])
    {
      hide Walked, Touched;
      var k := 0;
      while k < |pages|
        invariant 0 <= k <= |pages| && Valid() && (Clean() ==> old(Clean()))
        invariant Clean() ==> forall i :: 0 <= i < k ==> PageOk(v.src.blocks, perPage, pages[i])
      {
        if !PageOk(v.src.blocks, perPage, pages[k]) {
          Report(Checksum(pages[k]));
        }
        k := k + 1;
      }
    }

    /** Every block the bitmap covers: allocated exactly when the walk came to it. */
    method CompareBits(reserved: nat, perPage: nat, pages: seq<Lba>)
      requires Valid() && perPage > 0
      requires Clean() ==> reserved + |pages| * (32 * perPage) >= |v.src.blocks| && forall i :: 0 <= i < |pages| ==>
                PageOk(v.src.blocks, perPage, pages[i])
      modifies this`findings, this`truncated
      ensures Valid() && (Clean() <==> old(Clean()) && forall x: Lba :: reserved <= x < |v.src.blocks| ==>
                (x in Marked(words) <==>
                    !FreeOnDisk(v.src.blocks, Geometry(reserved, |v.src.blocks|, perPage, pages), x)))
    {
      hide Walked, Touched, FreeOnDisk, FreeAt, PageOk;
      ghost var g := Geometry(reserved, |v.src.blocks|, perPage, pages);
      var x: Lba := reserved;
      while x < |v.src.blocks|
        invariant reserved <= x && Valid()
        invariant Clean() <==> old(Clean()) && forall y: Lba :: reserved <= y < x && y < |v.src.blocks| ==>
                    (y in Marked(words) <==> !FreeOnDisk(v.src.blocks, g, y))
      {
        var free := FreeAt(pages, perPage, x - reserved);
        if old(Clean()) { BitSays(reserved, perPage, pages, x); }
        if free == Some(false) && !IsMarked(x) {
          Report(OrphanBlock(x));
        } else if free == Some(true) && IsMarked(x) {
          Report(ReachableButFree(x));
        }
        x := x + 1;
      }
    }

    predicate IsMarked(x: Lba)
      reads this
      ensures IsMarked(x) <==> x in Marked(words)
    {
      FreeBit(words, x)
    }

    lemma BitSays(reserved: nat, perPage: nat, pages: seq<Lba>, x: Lba)
      requires perPage > 0 && reserved <= x < |v.src.blocks| <= reserved + |pages| * (32 * perPage)
      requires forall i :: 0 <= i < |pages| ==> PageOk(v.src.blocks, perPage, pages[i])
      ensures FreeAt(pages, perPage, x - reserved) == Some(FreeOnDisk(v.src.blocks,
                Geometry(reserved, |v.src.blocks|, perPage, pages), x))
    {
      hide FreeBit, Quotient;
      var g, b := Geometry(reserved, |v.src.blocks|, perPage, pages), x - reserved;
      var p := Quotient(b, 32 * perPage);
      if p >= |pages| { MulMonotone(|pages|, p, 32 * perPage); }
      FirstIs(g, p);
      forall i: nat | i < |pages| && FreeInPage(v.src.blocks, g, i, x)
        ensures i == p
      {
        FirstIs(g, i);
        QuotientIs(b, 32 * perPage, i);
      }
      assert FreeInPage(v.src.blocks, g, p, x) <==> FreeBit(v.src.blocks[pages[p]].words, b - p * (32 * perPage));
    }

    /** From here on the blocks of `list` are looked into, and settled. */
    ghost method LookInto(list: seq<Lba>, newcomer: set<Lba>, open: set<Lba>, last: Option<Lba>)
      requires Valid() && forall x :: x in list ==>
                x < |v.src.blocks| && x in Marked(words) && Walked(v.src.blocks, v.f, v.root, x)
                    && !IsDirectory(v.src.blocks[x])
      requires Clean() ==> forall x: Lba, l: Link :: x in list ==>
                Settled(v.src.blocks, v.f, Marked(words), inner + SetOf(list), x, l)
      requires SettledSoFar(newcomer, open, last)
      modifies this`inner
      ensures Valid() && inner == old(inner) + SetOf(list) && SettledSoFar(newcomer, open, last)
    {
      hide Touched, Walked, SettledBut, Settled;
      if Clean() { ListSettled(v.src.blocks, v.f, Marked(words), inner, inner - newcomer, open, last, list,
          inner + SetOf(list) - newcomer); }
      inner := inner + SetOf(list);
    }
  }

  /** Reading one record more. */
  lemma RecordSeen(d: Disk, f: Format, entries: seq<Lba>, records: seq<Record>, i: nat, at: Option<nat>,
          covered: seq<bool>)
    requires i < |records| && |covered| == |entries|
    requires at.None? ==> records[i].entry !in entries
    requires at.Some? ==> at.value < |entries| && entries[at.value] == records[i].entry
    requires at.Some? ==> forall k :: 0 <= k < |entries| && entries[k] == records[i].entry ==> k == at.value
    requires forall k :: 0 <= k < |entries| ==> (covered[k] <==> HasRecord(records[..i], entries[k]))
    ensures var next := if at.Some? then covered[at.value := true] else covered;
            forall k :: 0 <= k < |entries| ==> (next[k] <==> HasRecord(records[..i + 1], entries[k]))
    ensures RightAt(d, f, entries, records, i) <==> at.Some? && !covered[at.value] && Describes(d, f, records[i])
  {
    hide Describes;
    var more, was := records[..i + 1], records[..i];
    forall k | 0 <= k < |entries|
      ensures HasRecord(records[..i + 1], entries[k]) <==>
                HasRecord(records[..i], entries[k]) || entries[k] == records[i].entry
    {
      assert more[i] == records[i] && forall j :: 0 <= j < i ==> more[j] == was[j];
    }
    if at.Some? {
      assert entries[at.value] in entries;
      assert covered[at.value] <==> HasRecord(was, entries[at.value]);
      assert forall j :: 0 <= j < i ==> was[j] == records[j];
    }
  }

  lemma HandsOrNot(d: Disk, f: Format, c: FileChain)
    requires f.payload > 0 && IsChain(d, f, c)
    ensures forall s :: Hands(d, f, c, s) <==> Holds(d, f, c, s)
  {
    hide Walks;
    forall s
      ensures Hands(d, f, c, s) <==> Holds(d, f, c, s)
    {
      HandsIsHolds(d, f, c, s);
    }
  }

  lemma ContentStaysSettled(d: Disk, f: Format, marked: set<Lba>, marked2: set<Lba>, inner: set<Lba>, h: Lba)
    requires marked <= marked2 && forall l: Link :: l.Datum? || l.Ext? ==> Settled(d, f, marked, inner, h, l)
    ensures forall l: Link :: l.Datum? || l.Ext? ==> Settled(d, f, marked2, inner, h, l)
  {
    hide At;
  }

  /** An entry with its content and its comment settled has its chain pointer left and, if
      it is a directory, its table. */
  lemma EntrySettled(d: Disk, f: Format, marked: set<Lba>, inner: set<Lba>, open: set<Lba>, h: Lba)
    requires SettledBut(d, f, marked, inner, inner - {h}, open, None) && h < |d| && d[h].Header?
    requires Settled(d, f, marked, inner, h, Note)
    requires d[h].kind.File? ==> forall l: Link :: l.Datum? || l.Ext? ==> Settled(d, f, marked, inner, h, l)
    ensures SettledBut(d, f, marked, inner, inner, open + {h}, Some(h))
    ensures !d[h].kind.Directory? ==> SettledBut(d, f, marked, inner, inner, open, Some(h))
  {
    forall x: Lba, l: Link | x in inner && !l.Page? && !(x in open && IsTable(l))
        && !(x == h && (l.Chain? || (d[h].kind.Directory? && IsTable(l))))
      ensures Settled(d, f, marked, inner, x, l)
    {
      if x != h { assert x in inner - {h}; }
    }
  }

  lemma OneStaysSettled(d: Disk, f: Format, marked: set<Lba>, inner: set<Lba>, marked2: set<Lba>, inner2: set<Lba>,
          x: Lba, l: Link)
    requires Settled(d, f, marked, inner, x, l) && marked <= marked2 && inner <= inner2
    ensures Settled(d, f, marked2, inner2, x, l)
  {}

  /** Once it is marked, what pointed at an entry is settled. */
  lemma NewcomerSettles(d: Disk, f: Format, marked: set<Lba>, inner: set<Lba>, open: set<Lba>, last: Option<Lba>,
          dir: Lba, i: nat, h: Lba, marked2: set<Lba>)
    requires SettledBut(d, f, marked, inner, inner - {}, open, last) && dir in inner && dir < |d|
              && marked2 == marked + {h}
    requires last.Some? ==> last.value in inner && last.value < |d|
    requires if last.None? then At(d[dir], Slot(i)) == h
              else At(d[last.value], Chain) == h && Settled(d, f, marked, inner, dir, Slot(i))
    ensures SettledBut(d, f, marked2, inner + {h}, inner, open, None)
              && Settled(d, f, marked2, inner + {h}, dir, Slot(i))
  {
    assert inner - {} == inner;
    StaysSettled(d, f, marked, inner, inner, open, last, marked2, inner + {h});
  }

  lemma ChainEnds(d: Disk, f: Format, marked: set<Lba>, inner: set<Lba>, open: set<Lba>, last: Lba)
    requires SettledBut(d, f, marked, inner, inner - {}, open, Some(last)) && last < |d| && At(d[last], Chain) == 0
    ensures SettledBut(d, f, marked, inner, inner - {}, open, None)
  {}

  lemma KindUnfolds(d: Disk, h: Lba)
    requires h < |d| && d[h].Header?
    ensures Validator.Unfolds(d, h) <==> d[h].kind.Directory?
  {}

  lemma MoreInQueue(queue: seq<Lba>, h: Lba)
    ensures SetOf(queue + [h]) == SetOf(queue) + {h}
    ensures NoRepeats(queue) && h !in queue ==> NoRepeats(queue + [h])
  {}

  lemma VisitMore(visited: seq<Lba>, x: Lba, n: nat)
    requires NoRepeats(visited) && x !in visited && x < n && forall y :: y in visited ==> y < n
    ensures NoRepeats(visited + [x]) && |visited| < n
  {
    FitsInVolume(SetOf(visited), x, n);
    SizeOfSet(visited);
  }

  lemma SlotsStaySettled(d: Disk, f: Format, marked: set<Lba>, inner: set<Lba>, marked2: set<Lba>, inner2: set<Lba>,
          x: Lba, n: nat)
    requires marked <= marked2 && inner <= inner2 && forall k: nat :: k < n ==> Settled(d, f, marked, inner, x, Slot(k))
    ensures forall k: nat :: k < n ==> Settled(d, f, marked2, inner2, x, Slot(k))
  {
    forall k: nat | k < n
      ensures Settled(d, f, marked2, inner2, x, Slot(k))
    {
      OneStaysSettled(d, f, marked, inner, marked2, inner2, x, Slot(k));
    }
  }

  /** A directory whose slots and cache are settled is. */
  lemma DirectoryCloses(d: Disk, f: Format, marked: set<Lba>, inner: set<Lba>, open: set<Lba>, dir: Lba)
    requires SettledBut(d, f, marked, inner, inner - {}, open + {dir}, None) && dir < |d| && IsDirectory(d[dir])
    requires forall k: nat :: k < |HashTable(d[dir])| ==> Settled(d, f, marked, inner, dir, Slot(k))
    requires Settled(d, f, marked, inner, dir, CacheHead)
    ensures SettledBut(d, f, marked, inner, inner - {}, open, None)
  {
    forall x: Lba, l: Link | x in inner - {} && !l.Page? && !(x in open && IsTable(l))
      ensures Settled(d, f, marked, inner, x, l)
    {
      if x == dir && l.Slot? {
        if l.i < |HashTable(d[dir])| { assert Settled(d, f, marked, inner, dir, Slot(l.i)); }
      }
    }
  }

  lemma TakenOnce(walked: seq<Lba>, rest: seq<Lba>, dir: Lba, more: seq<Lba>, was: set<Lba>)
    requires NoRepeats(walked + (rest + [dir])) && forall x :: x in walked || x in rest || x == dir ==> x in was
    requires forall x :: x in more ==> x in rest || x !in was
    requires NoRepeats(rest) && (forall x :: x in rest ==> x in was) ==> NoRepeats(more)
    ensures NoRepeats((walked + [dir]) + more)
  {
    var all := walked + (rest + [dir]);
    assert forall i :: 0 <= i < |walked| ==> all[i] == walked[i];
    assert forall i :: 0 <= i < |rest| ==> all[|walked| + i] == rest[i];
    assert all[|walked| + |rest|] == dir;
    Apart(walked, [dir]);
    Apart(walked + [dir], more);
  }

  /** One directory taken out of the queue and those under it put in: each is in one place. */
  lemma OneTaken(d: Disk, walked: seq<Lba>, rest: seq<Lba>, dir: Lba, more: seq<Lba>, was: set<Lba>, marked: set<Lba>,
          counted: nat, count: nat, inside: set<Lba>, inner: set<Lba>)
    requires Validator.QueuedBy(d, rest, more, was, marked, counted, count, inside, inner) && inside <= was
    requires NoRepeats(walked + (rest + [dir]))
    requires forall x :: x in walked || x in rest + [dir] <==> x in inside && Validator.Unfolds(d, x)
    ensures NoRepeats((walked + [dir]) + more) && |more| + counted <= |rest| + count && inner <= marked
    ensures forall x :: x in walked + [dir] || x in more <==> x in inner && Validator.Unfolds(d, x)
  {
    var all := walked + (rest + [dir]);
    forall x | x in rest || x == dir
      ensures x in rest + [dir]
    {}
    forall i, j | 0 <= i < j < |rest|
      ensures rest[i] != rest[j]
    {
      assert all[|walked| + i] == rest[i] && all[|walked| + j] == rest[j];
    }
    hide Validator.Unfolds;
    TakenOnce(walked, rest, dir, more, was);
  }

  lemma RootStarts(d: Disk, f: Format, marked: set<Lba>, root: Lba)
    requires root < |d| && d[root].Root?
    ensures SettledBut(d, f, marked, {root}, {root} - {}, SetOf([root]), None)
  {
    assert root in [root];
  }

  lemma MarkedFits(words: seq<Word>)
    ensures |Marked(words)| <= 32 * |words|
  {
    SetBelow(Marked(words), 32 * |words|);
  }

  /** A page of the bitmap that can be read. */
  predicate PageOk(d: Disk, perPage: nat, p: Lba) {
    p < |d| && d[p].Bitmap? && |d[p].words| == perPage
  }

  lemma FirstIs(g: Geometry, i: nat)
    ensures FirstOf(g, i) == g.reserved + i * (32 * g.perPage)
  {
    assert i * g.perPage * 32 == i * (32 * g.perPage);
  }

  lemma PagesAreTouched(d: Disk, f: Format, root: Lba)
    requires root < |d| && d[root].Root? && 0 !in d[root].pages
    ensures forall y :: y in d[root].pages ==> Touched(d, f, root, y)
  {
    hide Walked, Touched;
    RootIsWalked(d, f, root);
    forall y | y in d[root].pages
      ensures Touched(d, f, root, y)
    {
      var i :| 0 <= i < |d[root].pages| && d[root].pages[i] == y;
      OneStepOn(d, f, root, root, Page(i));
    }
  }

  lemma NullIsSettled(d: Disk, f: Format, marked: set<Lba>, inner: set<Lba>, x: Lba, l: Link)
    requires x < |d| && At(d[x], l) == 0
    ensures Settled(d, f, marked, inner, x, l)
  {}

  lemma NoRepeatsNone()
    ensures NoRepeats([])
  {}

  lemma NoCacheToSettle(d: Disk, f: Format, marked: set<Lba>, inner: set<Lba>, dir: Lba)
    requires !f.dircache && dir < |d|
    ensures Settled(d, f, marked, inner, dir, CacheHead)
  {}

  lemma InThere(list: seq<Lba>, s: set<Lba>)
    requires forall x :: x in list ==> x in s
    ensures SetOf(list) <= s
  {}

  lemma WalkedIsTouched(d: Disk, f: Format, root: Lba, list: seq<Lba>)
    requires forall x :: x in list ==> Walked(d, f, root, x)
    ensures forall x :: x in list ==> Touched(d, f, root, x)
  {
    hide Walked;
  }

  lemma ListSettled(d: Disk, f: Format, marked: set<Lba>, inner: set<Lba>, who: set<Lba>, open: set<Lba>,
          last: Option<Lba>, list: seq<Lba>, who2: set<Lba>)
    requires SettledBut(d, f, marked, inner, who, open, last) && who2 <= who + SetOf(list)
    requires forall x: Lba, l: Link :: x in list ==> Settled(d, f, marked, inner + SetOf(list), x, l)
    ensures SettledBut(d, f, marked, inner + SetOf(list), who2, open, last)
  {
    StaysSettled(d, f, marked, inner, who, open, last, marked, inner + SetOf(list));
    hide Settled;
  }

  lemma NothingMarked(n: nat)
    ensures Marked(seq(n, i => 0)) == {}
  {
    var none: seq<Word> := seq(n, i => 0);
    forall b: nat
      ensures !FreeBit(none, b)
    {
      NoBits(b % 32);
    }
  }

  lemma {:induction false} NoBits(k: nat)
    ensures !Bit(0, k)
    decreases k
  {
    if k > 0 { NoBits(k - 1); }
  }

  lemma MarkedMore(words: seq<Word>, lba: Lba)
    requires lba < 32 * |words| && !FreeBit(words, lba)
    ensures |Raised(words, lba)| == |words| && Marked(Raised(words, lba)) == Marked(words) + {lba}
              && lba !in Marked(words)
  {
    RaisedBits(words, lba, 32 * |words|);
  }

  // ---- The report --------------------------------------------------------------------------------------

  lemma EverythingMarked(d: Disk, f: Format, root: Lba, marked: set<Lba>, inner: set<Lba>, all: set<Lba>)
    requires root in inner && inner <= marked <= all && root < |d| && d[root].Root?
    requires forall x: Lba :: x in inner ==> x < |d| && (d[x].Root? ==> x == root)
    requires forall x: Lba, l: Link :: x in inner && !l.Page? ==> Settled(d, f, marked, inner, x, l)
    requires forall y :: y in d[root].pages ==> y in all
    ensures forall y: Lba :: Touched(d, f, root, y) ==> y in all
  {
    hide Touched;
    forall x: Lba, l: Link | x in inner
      ensures Settled(d, f, all, inner, x, l)
    {
      if !l.Page? { assert Settled(d, f, marked, inner, x, l); }
    }
    AllIsMarked(d, f, root, all, inner);
  }

  /** Validate a volume. Whatever is on the disk, what is marked is come to from the root.
      Where there is nothing to report everything come to is marked, and the bitmap calls
      allocated those blocks and no others. */
  method Validate(v: Volume, reserved: nat, perPage: nat) returns (report: Validator)
    requires v.f.payload > 0 && v.f.slots > 0 && perPage > 0
    requires v.root < |v.src.blocks| && v.src.blocks[v.root].Root? && 0 !in v.src.blocks[v.root].pages
    ensures fresh(report) && report.v == v && report.Valid()
    ensures forall x: Lba :: x in Marked(report.words) ==> Touched(v.src.blocks, v.f, v.root, x)
    ensures report.Clean() ==> forall x: Lba :: Touched(v.src.blocks, v.f, v.root, x) ==> x in Marked(report.words)
    ensures report.Clean() ==> forall x: Lba :: reserved <= x < |v.src.blocks| ==>
              (Touched(v.src.blocks, v.f, v.root, x) <==>
                  !FreeOnDisk(v.src.blocks, Geometry(reserved, |v.src.blocks|, perPage, v.src.blocks[v.root].pages), x))
  {
    hide Walked, Touched, Settled, FreeOnDisk;
    report := new Validator(v);
    report.WalkReachable();
    ghost var marked := Marked(report.words);
    report.ValidateBitmap(reserved, perPage);
    if report.Clean() {
      EverythingMarked(v.src.blocks, v.f, v.root, marked, report.inner, Marked(report.words));
    }
  }

  /** Contents, comments and pages of the bitmap are what they are used as: no pointer in
      them, and no cache where the format has none. The walk cannot see as much of raw
      data blocks. */
  ghost predicate Blunt(d: Disk, f: Format, root: Lba) {
    forall x: Lba, l: Link :: Walked(d, f, root, x) && x < |d| && At(d[x], l) != 0 ==>
      Followed(f, l) && (IsLeaf(l) && At(d[x], l) < |d| ==> forall k: Link :: At(d[At(d[x], l)], k) == 0)
  }

  lemma {:induction false} ReachedIsTouched(d: Disk, f: Format, root: Lba, path: seq<Lba>, n: nat)
    requires Blunt(d, f, root) && IsPath(d, path) && path[0] == root && n < |path|
    ensures Touched(d, f, root, path[n]) && (n < |path| - 1 ==> Walked(d, f, root, path[n]))
    decreases n
  {
    hide Walked;
    if n == 0 {
      RootIsWalked(d, f, root);
    } else {
      ReachedIsTouched(d, f, root, path, n - 1);
      assert PointsTo(d, path[n - 1], path[n - 1 + 1]);
      assert n < |path| - 1 ==> PointsTo(d, path[n], path[n + 1]);
      var l :| At(d[path[n - 1]], l) == path[n];
      OneStepOn(d, f, root, path[n - 1], l);
    }
  }

  /** A volume that validates clean is safe: nothing a walk arrives at is called free. */
  lemma CleanIsSafe(d: Disk, f: Format, root: Lba, g: Geometry)
    requires Blunt(d, f, root) && g.count == |d|
    requires forall x: Lba :: g.reserved <= x < |d| ==> (Touched(d, f, root, x) <==> !FreeOnDisk(d, g, x))
    ensures Safe(d, g, root)
  {
    hide Touched, Blunt;
    forall x | Reachable(d, root, x)
      ensures !FreeOnDisk(d, g, x)
    {
      var path :| IsPath(d, path) && path[0] == root && path[|path| - 1] == x;
      ReachedIsTouched(d, f, root, path, |path| - 1);
    }
  }
}
