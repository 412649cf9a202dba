/**
 The block allocator: a volume's bitmap held in memory as longwords, edited a bit
 at a time and flushed a page at a time. What it stands for is a set of free
 blocks in memory and another one on the disk.
 */
module Allocation {
  import opened Words
  import opened Disk

  datatype AllocError =
    | BitmapInvalid
    | LbaOutOfRange(lba: Lba)
    | VolumeFull(blockCount: nat)
    | NotCovered(lba: Lba)
    | DoubleFree(lba: Lba)
    | NotDurable(lba: Lba)
    | PageMissing(index: nat)
    | AlreadyAllocated(lba: Lba)

  /** A block handed out, and the bitmap page that carries its bit. */
  datatype Allocated = Allocated(lba: Lba, page: nat)

  /** A run of bits: `length` of them from `start`. */
  datatype Run = Run(start: nat, length: nat)

  // ---- Runs of free bits --------------------------------------------------------

  ghost predicate AllFree(words: seq<Word>, lo: int, hi: int) {
    forall b :: lo <= b < hi ==> FreeBit(words, b)
  }

  ghost predicate NoneFree(words: seq<Word>, lo: int, hi: int) {
    forall b :: lo <= b < hi ==> !FreeBit(words, b)
  }

  /** `r` is free and cannot be extended on either side within the first `n` bits. */
  ghost predicate MaximalRun(words: seq<Word>, n: nat, r: Run) {
    && r.length > 0 && r.start + r.length <= n
    && AllFree(words, r.start, r.start + r.length)
    && (r.start > 0 ==> !FreeBit(words, r.start - 1))
    && (r.start + r.length < n ==> !FreeBit(words, r.start + r.length))
  }

  /** How far ahead of `from` a bit lies when the scan wraps once at `n`. */
  function Ahead(from: nat, n: nat, bit: nat): int {
    if bit >= from then bit - from else n - from + bit
  }

  ghost predicate InSomeRun(runs: seq<Run>, b: int) {
    exists i :: 0 <= i < |runs| && runs[i].start <= b < runs[i].start + runs[i].length
  }

  /** `runs` are the maximal runs of the first `n` bits, all of them, left to right. */
  ghost predicate AllRuns(words: seq<Word>, n: nat, runs: seq<Run>) {
    && (forall i :: 0 <= i < |runs| ==> MaximalRun(words, n, runs[i]))
    && (forall i, j :: 0 <= i < j < |runs| ==> runs[i].start + runs[i].length < runs[j].start)
    && (forall b :: 0 <= b < n && FreeBit(words, b) ==> InSomeRun(runs, b))
  }

  /** The run `allocate_run` promises for `n` blocks from `from`: the first one long
      enough in cyclic order of its start, else one of the greatest length. */
  ghost predicate BestRun(words: seq<Word>, covered: nat, from: nat, n: nat, r: Run) {
    && MaximalRun(words, covered, r)
    && (r.length >= n ==>
          forall q :: MaximalRun(words, covered, q) && q.length >= n ==>
            Ahead(from, covered, r.start) <= Ahead(from, covered, q.start))
    && (r.length < n ==> forall q :: MaximalRun(words, covered, q) ==> q.length <= r.length)
  }

  /** `n` blocks in a row from `x` are in `free`. */
  ghost predicate Stretch(free: set<Lba>, x: Lba, n: nat) {
    forall y: Lba :: x <= y < x + n ==> y in free
  }

  /** Somewhere `n` blocks in a row are. */
  ghost predicate HasStretch(free: set<Lba>, n: nat) {
    exists x: Lba :: Stretch(free, x, n)
  }

  /** Free bits in a row are part of a maximal run. */
  lemma MaximalAround(words: seq<Word>, n: nat, lo: nat, hi: nat) returns (r: Run)
    requires lo < hi <= n && AllFree(words, lo, hi)
    ensures MaximalRun(words, n, r) && r.start <= lo && hi <= r.start + r.length
  {
    var a, b := lo, hi;
    while a > 0 && FreeBit(words, a - 1)
      invariant 0 <= a <= lo && AllFree(words, a, hi)
      decreases a
    {
      a := a - 1;
    }
    while b < n && FreeBit(words, b)
      invariant hi <= b <= n && AllFree(words, a, b)
      decreases n - b
    {
      b := b + 1;
    }
    r := Run(a, b - a);
  }

  /** Where a stretch of `n` free bits exists the run chosen is that long. */
  lemma BestIsEnough(words: seq<Word>, covered: nat, from: nat, n: nat, r: Run, lo: nat)
    requires BestRun(words, covered, from, n, r) && n > 0 && lo + n <= covered && AllFree(words, lo, lo + n)
    ensures r.length >= n
  {
    var q := MaximalAround(words, covered, lo, lo + n);
  }

  predicate TakenFrom(r: Run, n: nat, reserved: nat, out: seq<Allocated>) {
    && |out| == (if r.length >= n then n else r.length)
    && forall i :: 0 <= i < |out| ==> out[i].lba == reserved + r.start + i
  }

  /** Two maximal runs that share a bit are one run. */
  lemma MaximalRunsAgree(words: seq<Word>, n: nat, p: Run, q: Run, b: int)
    requires MaximalRun(words, n, p) && MaximalRun(words, n, q)
    requires p.start <= b < p.start + p.length && q.start <= b < q.start + q.length
    ensures p == q
  {
    assert p.start < q.start ==> FreeBit(words, q.start - 1);
    assert q.start < p.start ==> FreeBit(words, p.start - 1);
    assert p.start + p.length < q.start + q.length ==> FreeBit(words, p.start + p.length);
    assert q.start + q.length < p.start + p.length ==> FreeBit(words, q.start + q.length);
  }

  lemma EveryRunIsListed(words: seq<Word>, n: nat, runs: seq<Run>, q: Run)
    requires AllRuns(words, n, runs) && MaximalRun(words, n, q)
    ensures q in runs
  {
    assert FreeBit(words, q.start);
    assert InSomeRun(runs, q.start);
    var i :| 0 <= i < |runs| && runs[i].start <= q.start < runs[i].start + runs[i].length;
    MaximalRunsAgree(words, n, runs[i], q, q.start);
  }

  function Lbas(run: seq<Allocated>): set<Lba> {
    set a | a in run :: a.lba
  }

  // ---- Counting -------------------------------------------------------------------

  ghost function FreeBits(words: seq<Word>, n: nat): set<nat> {
    set b: nat | b < n && FreeBit(words, b)
  }

  function CountBits(words: seq<Word>, n: nat): nat {
    if n == 0 then 0 else CountBits(words, n - 1) + if FreeBit(words, n - 1) then 1 else 0
  }

  lemma {:induction false} CountIsCardinality(words: seq<Word>, n: nat)
    ensures CountBits(words, n) == |FreeBits(words, n)|
  {
    if n > 0 {
      CountIsCardinality(words, n - 1);
      OneBitMore(words, n);
    }
  }

  lemma OneBitMore(words: seq<Word>, n: nat)
    requires n > 0
    ensures |FreeBits(words, n)| == |FreeBits(words, n - 1)| + if FreeBit(words, n - 1) then 1 else 0
  {
    hide FreeBit;
    var before, b: nat := FreeBits(words, n - 1), n - 1;
    assert b !in before;
    if FreeBit(words, b) {
      assert FreeBits(words, n) == before + {b};
    } else {
      assert FreeBits(words, n) == before;
    }
  }

  lemma {:induction false} CountBound(words: seq<Word>, n: nat)
    ensures CountBits(words, n) <= n
  {
    if n > 0 { CountBound(words, n - 1); }
  }

  /** The low `n` bits of a word, counted from the bottom as `CountOnes` does, are
      those the bit by bit count meets in it. */
  lemma {:induction false} CountInWord(words: seq<Word>, base: nat, w: nat, n: nat)
    requires w < Pow2(n)
    requires forall k: nat :: k < n ==> (Bit(w, k) <==> FreeBit(words, base + k))
    ensures CountBits(words, base + n) == CountBits(words, base) + CountOnes(w)
    decreases n
  {
    if n > 0 {
      assert Bit(w, 0) <==> FreeBit(words, base + 0);
      forall k: nat | k < n - 1
        ensures Bit(w / 2, k) <==> FreeBit(words, base + 1 + k)
      {
        assert Bit(w, k + 1) <==> FreeBit(words, base + (k + 1));
      }
      CountInWord(words, base + 1, w / 2, n - 1);
    }
  }

  lemma PageSlice(perPage: nat, n: nat, i: nat)
    requires i < n
    ensures 0 <= i * perPage <= (i + 1) * perPage <= perPage * n
    ensures (i + 1) * perPage == i * perPage + perPage
  {
    MulMonotone(i + 1, n, perPage);
    MulMonotone(i, n, perPage);
  }

  lemma PageHoldsRange(g: Geometry, i: nat, x: Lba)
    requires 0 <= x - FirstOf(g, i) < 32 * g.perPage
    ensures x >= g.reserved && i * g.perPage <= (x - g.reserved) / 32 < i * g.perPage + g.perPage
  {
    assert FirstOf(g, i) == g.reserved + 32 * (i * g.perPage);
  }

  /** The disk's pages hold the words of `words`, page by page, so the disk and
      the words call the same blocks free. */
  lemma PagesHoldTheWords(d: Disk, g: Geometry, words: seq<Word>, i: nat, x: Lba)
    requires i < |g.pages| && g.pages[i] < |d|
    requires i * g.perPage + g.perPage <= |words|
    requires d[g.pages[i]] == Bitmap(words[i * g.perPage..i * g.perPage + g.perPage])
    ensures FreeInPage(d, g, i, x) <==>
              FreeBit(words, x - g.reserved) && i * g.perPage <= (x - g.reserved) / 32 < i * g.perPage + g.perPage
  {
    PageHoldsFrom(d, g, words, i, i * g.perPage, x);
  }

  lemma PageHoldsFrom(d: Disk, g: Geometry, words: seq<Word>, i: nat, k: nat, x: Lba)
    requires i < |g.pages| && g.pages[i] < |d| && k + g.perPage <= |words|
    requires d[g.pages[i]] == Bitmap(words[k..k + g.perPage]) && FirstOf(g, i) == g.reserved + 32 * k
    ensures FreeInPage(d, g, i, x) <==> FreeBit(words, x - g.reserved) && k <= (x - g.reserved) / 32 < k + g.perPage
  {
    hide FreeBit, FirstOf;
    SliceHoldsBits(words, k, g.perPage, x - g.reserved);
  }

  /** A bit of a stretch of words is a bit of the words. */
  lemma SliceHoldsBits(words: seq<Word>, k: nat, n: nat, bit: int)
    requires k + n <= |words|
    ensures 0 <= bit - 32 * k < 32 * n && FreeBit(words[k..k + n], bit - 32 * k) <==>
              FreeBit(words, bit) && k <= bit / 32 < k + n
  {
    if 0 <= bit - 32 * k < 32 * n {
      assert bit / 32 == k + (bit - 32 * k) / 32;
    }
  }

  /** `words` with block bit `bit` marked allocated. */
  function Cleared(words: seq<Word>, bit: nat): seq<Word>
    requires bit < 32 * |words|
  {
    words[bit / 32 := And(words[bit / 32], Not(One(bit % 32)))]
  }

  /** `words` with block bit `bit` marked free. */
  function Raised(words: seq<Word>, bit: nat): seq<Word>
    requires bit < 32 * |words|
  {
    SetBit(words[bit / 32], bit % 32, 0);
    words[bit / 32 := Or(words[bit / 32], One(bit % 32))]
  }

  lemma ClearedBits(words: seq<Word>, bit: nat, n: nat)
    requires bit < 32 * |words| && bit < n && FreeBit(words, bit)
    ensures forall b :: FreeBit(Cleared(words, bit), b) <==> FreeBit(words, b) && b != bit
    ensures |FreeBits(Cleared(words, bit), n)| == |FreeBits(words, n)| - 1
  {
    forall b
      ensures FreeBit(Cleared(words, bit), b) <==> FreeBit(words, b) && b != bit
    {
      if 0 <= b < 32 * |words| && b / 32 == bit / 32 { ClearedBit(words[bit / 32], bit % 32, b % 32); }
    }
    assert FreeBits(Cleared(words, bit), n) == FreeBits(words, n) - {bit};
  }

  lemma RaisedBits(words: seq<Word>, bit: nat, n: nat)
    requires bit < 32 * |words| && bit < n && !FreeBit(words, bit)
    ensures forall b :: FreeBit(Raised(words, bit), b) <==> FreeBit(words, b) || b == bit
    ensures |FreeBits(Raised(words, bit), n)| == |FreeBits(words, n)| + 1
  {
    forall b
      ensures FreeBit(Raised(words, bit), b) <==> FreeBit(words, b) || b == bit
    {
      if 0 <= b < 32 * |words| && b / 32 == bit / 32 { SetBit(words[bit / 32], bit % 32, b % 32); }
    }
    assert FreeBits(Raised(words, bit), n) == FreeBits(words, n) + {bit};
  }

  /** Word `w` with every bit outside `from..to` masked off. */
  function Candidates(words: seq<Word>, w: nat, from: nat, to: nat): Word
    requires from < to <= 32 * |words| && from / 32 <= w <= (to - 1) / 32
  {
    var low := if 32 * w < from then And(words[w], OnesFrom(from - 32 * w)) else words[w];
    if 32 * w + 32 > to then And(low, OnesBelow(to - 32 * w)) else low
  }

  lemma CandidateBits(words: seq<Word>, w: nat, from: nat, to: nat)
    requires from < to <= 32 * |words| && from / 32 <= w <= (to - 1) / 32
    ensures forall k: nat :: Bit(Candidates(words, w, from, to), k) <==>
              k < 32 && from <= 32 * w + k < to && FreeBit(words, 32 * w + k)
  {
    hide Bit, And, Pow2;
    PowerTable();
    var low: Word := if 32 * w < from then And(words[w], OnesFrom(from - 32 * w)) else words[w];
    forall k: nat
      ensures Bit(Candidates(words, w, from, to), k) <==>
                k < 32 && from <= 32 * w + k < to && FreeBit(words, 32 * w + k)
    {
      if k < 32 {
        if 32 * w < from { MaskFrom(words[w], from - 32 * w, k); }
        if 32 * w + 32 > to { MaskBelow(low, to - 32 * w, k); }
      } else if Bit(Candidates(words, w, from, to), k) {
        BitBound(Candidates(words, w, from, to), 32, k);
      }
    }
  }

  lemma FirstCandidate(words: seq<Word>, w: nat, from: nat, to: nat)
    requires from < to <= 32 * |words| && from / 32 <= w <= (to - 1) / 32
    requires NoneFree(words, from, 32 * w)
    ensures var word := Candidates(words, w, from, to);
            if word == 0 then NoneFree(words, from, if 32 * w + 32 < to then 32 * w + 32 else to)
            else var b := 32 * w + TrailingZeros(word);
                 from <= b < to && FreeBit(words, b) && NoneFree(words, from, b)
  {
    var word := Candidates(words, w, from, to);
    CandidateBits(words, w, from, to);
    forall b | from <= b < to && 32 * w <= b
      ensures Bit(word, b - 32 * w) <==> b - 32 * w < 32 && FreeBit(words, b)
    {}
    if word == 0 {
      forall b | from <= b < to && b < 32 * w + 32
        ensures !FreeBit(words, b)
      {
        if b >= 32 * w { ZeroBit(b - 32 * w); }
      }
    }
  }

  class Allocator {
    const reserved: nat
    const blockCount: nat
    const perPage: nat
    var words: seq<Word>
    var pages: seq<Lba>
    var dirty: seq<bool>
    var cursor: nat
    var free: nat

    // ---- What the fields stand for -------------------------------------------------

    function Covered(): nat
      reads this`words
    {
      var n := if blockCount < reserved then 0 else blockCount - reserved;
      if n < 32 * |words| then n else 32 * |words|
    }

    ghost predicate Valid()
      reads this`words, this`dirty, this`free
    {
      && reserved > 0 && perPage > 0
      && |words| == perPage * |dirty|
      && free == |FreeBits(words, Covered())|
    }

    predicate IsCovered(lba: Lba)
      reads this`words
    {
      reserved <= lba < reserved + Covered()
    }

    /** Marked free in memory. */
    predicate IsFree(lba: Lba)
      reads this`words
    {
      IsCovered(lba) && FreeBit(words, lba - reserved)
    }

    ghost function Free(): set<Lba>
      reads this`words
    {
      set x: Lba | reserved <= x < reserved + Covered() && IsFree(x)
    }

    function PageOf(bit: nat): nat
      requires perPage > 0
    {
      Quotient(bit / 32, perPage)
    }

    /** `a` is a block that was handed out since its bitmap page was last flushed. */
    predicate Pending(a: Allocated)
      requires perPage > 0
      reads this`dirty
    {
      a.lba >= reserved && a.page == PageOf(a.lba - reserved) && a.page < |dirty| && dirty[a.page]
    }

    function Layout(): Geometry
      reads this`pages, this`dirty
    {
      Geometry(reserved, blockCount, perPage, if |dirty| <= |pages| then pages[..|dirty|] else pages)
    }

    /** Every page this bitmap needs has a block of its own. */
    ghost predicate PagesGood()
      reads this`pages, this`dirty
    {
      && |dirty| <= |pages|
      && (forall i :: 0 <= i < |dirty| ==> 0 < pages[i] < blockCount)
      && (forall i, j :: 0 <= i < j < |dirty| ==> pages[i] != pages[j])
    }

    function PageWords(i: nat): seq<Word>
      requires |words| == perPage * |dirty| && i < |dirty|
      reads this`words, this`dirty
    {
      PageSlice(perPage, |dirty|, i);
      words[i * perPage..i * perPage + perPage]
    }

    /** A page that is not dirty is on the disk as it is in memory. */
    ghost predicate Synced(d: Disk)
      reads this`words, this`dirty, this`pages
    {
      && |words| == perPage * |dirty|
      && |d| == blockCount
      && PagesGood()
      && forall i :: 0 <= i < |dirty| && !dirty[i] ==> d[pages[i]] == Bitmap(PageWords(i))
    }

    /** Only bits of pages that are now dirty were edited, and nothing else. */
    twostate predicate OnlyEdited()
      reads this
    {
      && pages == old(pages) && |dirty| == |old(dirty)| && |words| == |old(words)|
      && |words| == perPage * |dirty|
      && forall i :: 0 <= i < |dirty| && !dirty[i] ==> !old(dirty[i]) && PageWords(i) == old(PageWords(i))
    }

    constructor FromParts(reserved: nat, blockCount: nat, perPage: nat, pages: seq<Lba>, words: seq<Word>,
            allDirty: bool, pageCount: nat)
      requires reserved > 0 && perPage > 0 && |words| == perPage * pageCount
      ensures Valid()
      ensures this.reserved == reserved && this.blockCount == blockCount && this.perPage == perPage
      ensures this.pages == pages && this.words == words
      ensures dirty == seq(pageCount, i => allDirty)
    {
      this.reserved := reserved;
      this.blockCount := blockCount;
      this.perPage := perPage;
      this.pages := pages;
      this.words := words;
      this.dirty := seq(pageCount, i => allDirty);
      this.cursor := 0;
      this.free := 0;
      new;
      this.free := CountFree();
    }

    /** Popcount over the words, the padding past the volume's end masked off. */
    method CountFree() returns (n: nat)
      ensures n == |FreeBits(words, Covered())|
    {
      var covered := Covered();
      n := 0;
      var i := 0;
      while i < |words| && 32 * i < covered
        invariant 0 <= i <= |words|
        invariant n == CountBits(words, if 32 * i < covered then 32 * i else covered)
      {
        var usable := if covered - 32 * i < 32 then covered - 32 * i else 32;
        var mask := if usable == 32 then ALL_ONES else OnesBelow(usable);
        var w := And(words[i], mask);
        UsableBits(i, usable, w);
        n := n + CountOnes(w);
        i := i + 1;
      }
      CountIsCardinality(words, covered);
    }

    lemma UsableBits(i: nat, usable: nat, w: nat)
      requires i < |words| && 0 < usable <= 32
      requires w == And(words[i], if usable == 32 then ALL_ONES else OnesBelow(usable))
      ensures CountBits(words, 32 * i + usable) == CountBits(words, 32 * i) + CountOnes(w)
    {
      hide Bit, And, CountOnes, CountBits, Pow2;
      forall k: nat | k < usable
        ensures Bit(w, k) <==> FreeBit(words, 32 * i + k)
      {
        if usable == 32 {
          AndBit(words[i], ALL_ONES, k);
          PowerTable();
          BelowBit(32, k);
        } else {
          MaskBelow(words[i], usable, k);
        }
      }
      if usable == 32 { PowerTable(); }
      CountInWord(words, 32 * i, w, usable);
    }

    /** What a long-name root records as used: the covered blocks that are not free. */
    function BlocksUsed(): (used: nat)
      requires Valid()
      reads this`words, this`dirty, this`free
      ensures used + |FreeBits(words, Covered())| == Covered()
    {
      CountIsCardinality(words, Covered());
      CountBound(words, Covered());
      Covered() - free
    }

    // ---- Taking and returning single bits -------------------------------------------

    /** Clear one bit and mark its page dirty, the common end of every allocation. */
    method TakeBit(bit: nat) returns (a: Allocated)
      requires Valid() && bit < Covered() && FreeBit(words, bit)
      modifies this`words, this`free, this`dirty
      ensures Valid() && OnlyEdited()
      ensures words == Cleared(old(words), bit) && free == old(free) - 1
      ensures forall b :: FreeBit(words, b) <==> old(FreeBit(words, b)) && b != bit
      ensures a.lba == reserved + bit && Pending(a)
      ensures dirty == old(dirty)[a.page := true]
      ensures Free() == old(Free()) - {a.lba}
    {
      hide FreeBit, FreeBits, Quotient;
      PageBounds(bit);
      ClearedBits(words, bit, Covered());
      words := Cleared(words, bit);
      free := free - 1;
      var page := PageOf(bit);
      dirty := dirty[page := true];
      a := Allocated(reserved + bit, page);
      OneWordEdited(old(words), bit / 32, page);
      assert forall x: Lba :: IsFree(x) <==> old(IsFree(x)) && x != a.lba;
    }

    /** Set one bit and mark its page dirty. */
    method ReturnBit(bit: nat)
      requires Valid() && bit < Covered() && !FreeBit(words, bit)
      modifies this`words, this`free, this`dirty
      ensures Valid() && OnlyEdited()
      ensures words == Raised(old(words), bit) && free == old(free) + 1
      ensures PageOf(bit) < |dirty| && dirty == old(dirty)[PageOf(bit) := true]
      ensures Free() == old(Free()) + {reserved + bit}
    {
      hide FreeBit, FreeBits, Quotient;
      PageBounds(bit);
      RaisedBits(words, bit, Covered());
      words := Raised(words, bit);
      free := free + 1;
      dirty := dirty[PageOf(bit) := true];
      OneWordEdited(old(words), bit / 32, PageOf(bit));
      assert forall x: Lba :: IsFree(x) <==> old(IsFree(x)) || x == reserved + bit;
    }

    lemma PageBounds(bit: nat)
      requires Valid() && bit < Covered()
      ensures PageOf(bit) < |dirty| && bit / 32 < |words|
      ensures PageOf(bit) * perPage <= bit / 32 < PageOf(bit) * perPage + perPage <= |words|
    {
      if |dirty| <= PageOf(bit) {
        MulMonotone(|dirty|, PageOf(bit), perPage);
        assert false;
      }
      PageSlice(perPage, |dirty|, PageOf(bit));
    }

    /** A word lies in one page only, so the other pages are as they were. */
    lemma OneWordEdited(was: seq<Word>, w: nat, page: nat)
      requires perPage > 0 && |words| == |was| == perPage * |dirty|
      requires page < |dirty| && page * perPage <= w < page * perPage + perPage <= |words|
      requires words == was[w := words[w]]
      ensures forall i :: 0 <= i < |dirty| && i != page ==>
                i * perPage + perPage <= |words| && PageWords(i) == was[i * perPage..i * perPage + perPage]
    {
      forall i | 0 <= i < |dirty| && i != page
        ensures i * perPage + perPage <= |words| && PageWords(i) == was[i * perPage..i * perPage + perPage]
      {
        PageSlice(perPage, |dirty|, i);
        if i < page { MulMonotone(i + 1, page, perPage); MulMonotone(i, page, perPage); }
        if page < i { MulMonotone(page + 1, i, perPage); MulMonotone(page, i, perPage); }
      }
    }

    // ---- Searching ------------------------------------------------------------------

    /** The first free bit in `from..to`, a longword at a time. */
    method Scan(from: nat, to: nat) returns (r: Option<nat>)
      requires to <= 32 * |words|
      ensures r.None? ==> NoneFree(words, from, to)
      ensures r.Some? ==> from <= r.value < to && FreeBit(words, r.value) && NoneFree(words, from, r.value)
    {
      if from >= to {
        return None;
      }
      var w := from / 32;
      var lastWord := (to - 1) / 32;
      while w <= lastWord
        invariant from / 32 <= w <= lastWord + 1
        invariant NoneFree(words, from, if 32 * w < to then 32 * w else to)
      {
        FirstCandidate(words, w, from, to);
        var word := Candidates(words, w, from, to);
        if word != 0 {
          return Some(32 * w + TrailingZeros(word));
        }
        w := w + 1;
      }
      r := None;
    }

    /** First fit from bit `from`, wrapping once: the free bit least far ahead. */
    method AllocateFromBit(start: nat) returns (r: Result<Allocated, AllocError>)
      requires Valid()
      modifies this`words, this`free, this`dirty, this`cursor
      ensures Valid() && OnlyEdited() && Covered() == old(Covered())
      ensures r.Err? <==> old(Free()) == {}
      ensures r.Err? ==> r.error == VolumeFull(blockCount) && words == old(words) && dirty == old(dirty)
      ensures r.Ok? ==>
                var from := if start < Covered() then start else Covered();
                && reserved <= r.value.lba && cursor == r.value.lba - reserved + 1
                && r.value.lba in old(Free()) && Free() == old(Free()) - {r.value.lba}
                && Pending(r.value)
                && forall x :: x in old(Free()) ==>
                     Ahead(from, Covered(), r.value.lba - reserved) <= Ahead(from, Covered(), x - reserved)
    {
      hide FreeBit, Bit, Quotient, FreeBits, Cleared;
      var covered := Covered();
      var from := if start < covered then start else covered;
      var found := Scan(from, covered);
      if found.None? {
        found := Scan(0, from);
      }
      if found.None? {
        NothingFree(from);
        return Err(VolumeFull(blockCount));
      }
      NothingNearer(from, covered, found.value);
      var a := TakeBit(found.value);
      cursor := found.value + 1;
      r := Ok(a);
    }

    lemma NothingFree(from: nat)
      requires NoneFree(words, from, Covered()) && NoneFree(words, 0, from)
      ensures Free() == {}
    {
      forall x: Lba
        ensures !IsFree(x)
      {
        assert x >= reserved ==> (x - reserved < from || from <= x - reserved);
      }
    }

    lemma NothingNearer(from: nat, covered: nat, bit: nat)
      requires covered == Covered() && from <= covered && bit < covered && FreeBit(words, bit)
      requires (from <= bit && NoneFree(words, from, bit))
               || (bit < from && NoneFree(words, from, covered) && NoneFree(words, 0, bit))
      ensures reserved + bit in Free()
      ensures forall x :: x in Free() ==> Ahead(from, covered, bit) <= Ahead(from, covered, x - reserved)
    {
      assert IsFree(reserved + bit);
      forall x | x in Free()
        ensures Ahead(from, covered, bit) <= Ahead(from, covered, x - reserved)
      {
        assert FreeBit(words, x - reserved);
      }
    }

    /** First fit from where the last search left off. */
    method Allocate() returns (r: Result<Allocated, AllocError>)
      requires Valid()
      modifies this`words, this`free, this`dirty, this`cursor
      ensures Valid() && OnlyEdited() && Covered() == old(Covered())
      ensures r.Err? <==> old(Free()) == {}
      ensures r.Ok? ==>
                var from := if old(cursor) < Covered() then old(cursor) else Covered();
                && reserved <= r.value.lba && cursor == r.value.lba - reserved + 1
                && r.value.lba in old(Free()) && Free() == old(Free()) - {r.value.lba} && Pending(r.value)
                && forall x :: x in old(Free()) ==>
                     Ahead(from, Covered(), r.value.lba - reserved) <= Ahead(from, Covered(), x - reserved)
    {
      r := AllocateFromBit(cursor);
    }

    /** First fit from the block `hint`, which need not be in the volume. */
    method AllocateNear(hint: nat) returns (r: Result<Allocated, AllocError>)
      requires Valid()
      modifies this`words, this`free, this`dirty, this`cursor
      ensures Valid() && OnlyEdited() && Covered() == old(Covered())
      ensures r.Err? <==> old(Free()) == {}
      ensures r.Err? ==> words == old(words) && dirty == old(dirty)
      ensures r.Ok? ==>
                && r.value.lba in old(Free()) && Free() == old(Free()) - {r.value.lba}
                && Pending(r.value)
                && (forall x :: x in old(Free()) && x >= hint ==> hint <= r.value.lba <= x)
                && ((forall x :: x in old(Free()) ==> x < hint) ==> forall x :: x in old(Free()) ==> r.value.lba <= x)
    {
      var start := if hint < reserved then 0 else hint - reserved;
      r := AllocateFromBit(start);
    }

    // ---- Runs -----------------------------------------------------------------------

    /** One past the last bit of the free run that starts at `start`. */
    method RunEnd(start: nat, n: nat) returns (end: nat)
      requires start < n <= 32 * |words| && FreeBit(words, start)
      ensures start < end <= n && AllFree(words, start, end)
      ensures end < n ==> !FreeBit(words, end)
    {
      end := start;
      while end < n && FreeBit(words, end)
        invariant start <= end <= n
        invariant AllFree(words, start, end)
      {
        end := end + 1;
      }
    }

    /** Every maximal run of free bits in the covered range, in one unbroken pass. */
    method Runs(n: nat) returns (runs: seq<Run>)
      requires n <= 32 * |words|
      ensures AllRuns(words, n, runs)
    {
      runs := [];
      var bit := 0;
      while bit < n
        invariant 0 <= bit <= n
        invariant AllRunsBefore(n, runs, bit)
      {
        if FreeBit(words, bit) {
          var end := RunEnd(bit, n);
          RunListed(n, runs, bit, end);
          runs := runs + [Run(bit, end - bit)];
          bit := end;
        } else {
          bit := bit + 1;
        }
      }
    }

    /** `runs` are the maximal runs that start before `bit`, and `bit` is inside none. */
    ghost predicate AllRunsBefore(n: nat, runs: seq<Run>, bit: nat)
      reads this
    {
      && (forall i :: 0 <= i < |runs| ==> MaximalRun(words, n, runs[i]) && runs[i].start + runs[i].length <= bit)
      && (forall i, j :: 0 <= i < j < |runs| ==> runs[i].start + runs[i].length < runs[j].start)
      && (forall b :: 0 <= b < bit && FreeBit(words, b) ==> InSomeRun(runs, b))
      && (0 < bit < n ==> !FreeBit(words, bit - 1) || !FreeBit(words, bit))
    }

    lemma RunListed(n: nat, runs: seq<Run>, start: nat, end: nat)
      requires AllRunsBefore(n, runs, start) && start < end <= n
      requires AllFree(words, start, end) && (end < n ==> !FreeBit(words, end))
      ensures AllRunsBefore(n, runs + [Run(start, end - start)], end)
    {
      var q := Run(start, end - start);
      assert FreeBit(words, start);
      assert MaximalRun(words, n, q);
      ListedBefore(runs, runs + [q], start);
    }

    lemma ListedBefore(before: seq<Run>, runs: seq<Run>, start: nat)
      requires |runs| == |before| + 1 && before == runs[..|before|]
      requires runs[|before|].start == start
      requires forall b :: 0 <= b < start && FreeBit(words, b) ==> InSomeRun(before, b)
      ensures forall b :: 0 <= b < start + runs[|before|].length && FreeBit(words, b) ==> InSomeRun(runs, b)
    {
      forall b | 0 <= b < start + runs[|before|].length && FreeBit(words, b)
        ensures InSomeRun(runs, b)
      {
        if b < start {
          var i :| 0 <= i < |before| && before[i].start <= b < before[i].start + before[i].length;
          assert runs[i] == before[i];
        } else {
          assert runs[|before|].start <= b;
        }
      }
    }

    /** The run of at least `n` bits whose start is least far ahead of `from`. */
    method Nearest(runs: seq<Run>, covered: nat, from: nat, n: nat) returns (r: Option<Run>)
      ensures r.None? ==> forall q :: q in runs ==> q.length < n
      ensures r.Some? ==> r.value in runs && r.value.length >= n
      ensures r.Some? ==> forall q :: q in runs && q.length >= n ==>
                            Ahead(from, covered, r.value.start) <= Ahead(from, covered, q.start)
    {
      r := None;
      var i := 0;
      while i < |runs|
        invariant 0 <= i <= |runs|
        invariant r.None? ==> forall q :: q in runs[..i] ==> q.length < n
        invariant r.Some? ==> r.value in runs && r.value.length >= n
        invariant r.Some? ==> forall q :: q in runs[..i] && q.length >= n ==>
                                Ahead(from, covered, r.value.start) <= Ahead(from, covered, q.start)
      {
        var q := runs[i];
        assert runs[..i + 1] == runs[..i] + [q];
        if q.length >= n && (r.None? || Ahead(from, covered, q.start) < Ahead(from, covered, r.value.start)) {
          r := Some(q);
        }
        i := i + 1;
      }
      assert runs[..i] == runs;
    }

    /** A run of the greatest length, the last of several. */
    method Longest(runs: seq<Run>) returns (r: Option<Run>)
      ensures r.None? ==> runs == []
      ensures r.Some? ==> r.value in runs && forall q :: q in runs ==> q.length <= r.value.length
    {
      r := None;
      var i := 0;
      while i < |runs|
        invariant 0 <= i <= |runs|
        invariant r.None? ==> i == 0
        invariant r.Some? ==> r.value in runs && forall q :: q in runs[..i] ==> q.length <= r.value.length
      {
        assert runs[..i + 1] == runs[..i] + [runs[i]];
        if r.None? || runs[i].length >= r.value.length {
          r := Some(runs[i]);
        }
        i := i + 1;
      }
      assert runs[..i] == runs;
    }

    /** The first run of at least `n` bits ahead of `from`, else the last of the longest. */
    method ChooseRun(runs: seq<Run>, covered: nat, from: nat, n: nat) returns (r: Option<Run>)
      requires AllRuns(words, covered, runs)
      ensures r.None? ==> runs == []
      ensures r.Some? ==> BestRun(words, covered, from, n, r.value)
    {
      r := Nearest(runs, covered, from, n);
      if r.None? {
        r := Longest(runs);
      }
      forall q | MaximalRun(words, covered, q)
        ensures q in runs
      {
        EveryRunIsListed(words, covered, runs, q);
      }
    }

    /** Mark the bits `start..start + length` allocated. */
    method TakeRun(start: nat, length: nat) returns (out: seq<Allocated>)
      requires Valid() && start + length <= Covered() && AllFree(words, start, start + length)
      modifies this`words, this`free, this`dirty
      ensures Valid() && OnlyEdited() && Covered() == old(Covered())
      ensures |out| == length && forall i :: 0 <= i < length ==> out[i].lba == reserved + start + i
      ensures forall a :: a in out ==> Pending(a)
      ensures Free() == old(Free()) - Lbas(out)
    {
      out := [];
      assert Lbas(out) == {};
      while |out| < length
        invariant Valid() && OnlyEdited() && Covered() == old(Covered())
        invariant 0 <= |out| <= length
        invariant forall i :: 0 <= i < |out| ==> out[i].lba == reserved + start + i
        invariant forall a :: a in out ==> Pending(a)
        invariant AllFree(words, start + |out|, start + length)
        invariant Free() == old(Free()) - Lbas(out)
      {
        var a := TakeBit(start + |out|);
        assert Lbas(out + [a]) == Lbas(out) + {a.lba};
        out := out + [a];
      }
    }

    /** Where a scan starts: the hinted block, or the rotating cursor. */
    function StartBit(hint: Option<nat>, cursor: nat, covered: nat): nat {
      var hinted := if hint.None? then cursor else if hint.value < reserved then 0 else hint.value - reserved;
      if hinted < covered then hinted else covered
    }

    /** Up to `n` consecutive blocks: exactly `n` of the first long enough run, or the
        whole of a longest run when none is. */
    method AllocateRunFrom(n: nat, hint: Option<nat>) returns (r: Result<seq<Allocated>, AllocError>)
      requires Valid()
      modifies this`words, this`free, this`dirty, this`cursor
      ensures Valid() && OnlyEdited() && Covered() == old(Covered())
      ensures r.Err? <==> n > 0 && old(Free()) == {}
      ensures r.Err? ==> r.error == VolumeFull(blockCount) && words == old(words)
      ensures n == 0 ==> r == Ok([]) && words == old(words)
      ensures r.Ok? && n > 0 ==> exists run ::
                && BestRun(old(words), Covered(), StartBit(hint, old(cursor), old(Covered())), n, run)
                && TakenFrom(run, n, reserved, r.value)
      ensures r.Ok? ==> |r.value| <= n && (n > 0 ==> |r.value| > 0)
      ensures r.Ok? ==> Lbas(r.value) <= old(Free()) && Free() == old(Free()) - Lbas(r.value)
      ensures r.Ok? ==> forall a :: a in r.value ==> Pending(a)
      ensures r.Ok? && HasStretch(old(Free()), n) ==> |r.value| == n
    {
      if n == 0 {
        return Ok([]);
      }
      var chosen := FindRun(n, StartBit(hint, cursor, Covered()));
      if chosen.None? {
        return Err(VolumeFull(blockCount));
      }
      if HasStretch(Free(), n) { StretchIsEnough(n, StartBit(hint, cursor, Covered()), chosen.value); }
      var length := if chosen.value.length >= n then n else chosen.value.length;
      var out := TakeRun(chosen.value.start, length);
      assert TakenFrom(chosen.value, n, reserved, out);
      cursor := chosen.value.start + length;
      r := Ok(out);
    }

    /** The run `AllocateRunFrom` takes its blocks from. */
    method FindRun(n: nat, from: nat) returns (r: Option<Run>)
      requires Valid()
      ensures r.None? ==> Free() == {}
      ensures r.Some? ==> BestRun(words, Covered(), from, n, r.value)
      ensures r.Some? ==> forall x: Lba :: 0 <= x - reserved - r.value.start < r.value.length ==> x in Free()
      ensures r.Some? ==> reserved + r.value.start in Free()
    {
      var runs := Runs(Covered());
      r := ChooseRun(runs, Covered(), from, n);
      if r.None? {
        NoRunsNothingFree();
      } else {
        RunIsFree(r.value.start, r.value.length);
      }
    }

    lemma StretchIsEnough(n: nat, from: nat, r: Run)
      requires Valid() && n > 0 && BestRun(words, Covered(), from, n, r) && HasStretch(Free(), n)
      ensures r.length >= n
    {
      hide BestRun;
      var x: Lba :| Stretch(Free(), x, n);
      assert x in Free() && x + n - 1 in Free();
      forall b | x - reserved <= b < x - reserved + n
        ensures FreeBit(words, b)
      {
        assert reserved + b in Free();
      }
      BestIsEnough(words, Covered(), from, n, r, x - reserved);
    }

    lemma NoRunsNothingFree()
      requires AllRuns(words, Covered(), [])
      ensures Free() == {}
    {
      forall b | 0 <= b < Covered()
        ensures !FreeBit(words, b)
      {
        assert !InSomeRun([], b);
      }
      NothingFree(Covered());
    }

    lemma RunIsFree(start: nat, length: nat)
      requires start + length <= Covered() && AllFree(words, start, start + length)
      ensures forall x: Lba :: reserved + start <= x < reserved + start + length ==> x in Free()
    {
      forall x: Lba | reserved + start <= x < reserved + start + length
        ensures IsFree(x)
      {
        assert FreeBit(words, x - reserved);
      }
    }

    // ---- Naming one block -----------------------------------------------------------

    method AllocateExact(lba: Lba) returns (r: Result<Allocated, AllocError>)
      requires Valid()
      modifies this`words, this`free, this`dirty
      ensures Valid() && OnlyEdited() && Covered() == old(Covered())
      ensures r.Ok? <==> lba in old(Free())
      ensures r.Ok? ==> r.value.lba == lba && Free() == old(Free()) - {lba} && Pending(r.value)
      ensures r.Err? ==>
                words == old(words) && r.error == if IsCovered(lba) then AlreadyAllocated(lba) else NotCovered(lba)
    {
      if !IsCovered(lba) {
        return Err(NotCovered(lba));
      }
      if !IsFree(lba) {
        return Err(AlreadyAllocated(lba));
      }
      var a := TakeBit(lba - reserved);
      r := Ok(a);
    }

    /** Mark a block allocated; whether that changed anything. */
    method MarkInUse(lba: Lba) returns (r: Result<bool, AllocError>)
      requires Valid()
      modifies this`words, this`free, this`dirty
      ensures Valid() && OnlyEdited() && Covered() == old(Covered())
      ensures r == if old(IsCovered(lba)) then Ok(lba in old(Free())) else Err(NotCovered(lba))
      ensures Free() == old(Free()) - {lba}
    {
      if !IsCovered(lba) {
        return Err(NotCovered(lba));
      }
      if !IsFree(lba) {
        return Ok(false);
      }
      var a := TakeBit(lba - reserved);
      r := Ok(true);
    }

    /** Give a block back. */
    method FreeBlock(lba: Lba) returns (r: Result<(), AllocError>)
      requires Valid()
      modifies this`words, this`free, this`dirty
      ensures Valid() && OnlyEdited() && Covered() == old(Covered())
      ensures r.Ok? <==> old(IsCovered(lba)) && lba !in old(Free())
      ensures r.Ok? ==> Free() == old(Free()) + {lba}
      ensures r.Err? ==> words == old(words) && dirty == old(dirty)
                         && r.error == if IsCovered(lba) then DoubleFree(lba) else NotCovered(lba)
    {
      if !IsCovered(lba) {
        return Err(NotCovered(lba));
      }
      if IsFree(lba) {
        return Err(DoubleFree(lba));
      }
      ReturnBit(lba - reserved);
      r := Ok(());
    }

    // ---- Mark, flush, then reference ------------------------------------------------

    /** The block number of an allocation, for storing in somebody else's pointer:
        refused until the page that carries its bit has been flushed. */
    function Reference(a: Allocated): Result<Lba, AllocError>
      reads this
    {
      if a.page < |dirty| && dirty[a.page] then Err(NotDurable(a.lba)) else Ok(a.lba)
    }

    /** On a page that is on the disk as it is in memory, the disk and the memory
        call the same blocks free. */
    lemma CleanPageAgrees(d: Disk, x: Lba)
      requires Valid() && Synced(d) && IsCovered(x) && !dirty[PageOfBlock(x)]
      ensures FreeOnDisk(d, Layout(), x) <==> IsFree(x)
    {
      var g := Layout();
      var mine := PageOfBlock(x);
      forall i: nat | i < |g.pages| && FreeInPage(d, g, i, x)
        ensures i == mine
      {
        PageHoldsRange(g, i, x);
        QuotientIs((x - reserved) / 32, perPage, i);
      }
      PageSlice(perPage, |dirty|, mine);
      PagesHoldTheWords(d, g, words, mine, x);
    }

    function PageOfBlock(x: Lba): (p: nat)
      requires Valid() && IsCovered(x)
      reads this
      ensures p < |dirty|
    {
      PageBounds(x - reserved);
      PageOf(x - reserved)
    }

    /** If a pointer to a block that is still allocated may be stored, the bitmap on the
        disk already calls the block allocated. */
    lemma ReferencedIsDurable(d: Disk, a: Allocated)
      requires Valid() && Synced(d) && IsCovered(a.lba) && a.page == PageOfBlock(a.lba)
      requires Reference(a).Ok? && !IsFree(a.lba)
      ensures Reference(a) == Ok(a.lba) && !FreeOnDisk(d, Layout(), a.lba)
    {
      CleanPageAgrees(d, a.lba);
    }

    /** With every page flushed, the disk's free blocks are the memory's. */
    lemma CleanDiskAgrees(d: Disk)
      requires Valid() && Synced(d) && forall i :: 0 <= i < |dirty| ==> !dirty[i]
      ensures forall x :: FreeOnDisk(d, Layout(), x) <==> x in Free()
    {
      forall x
        ensures FreeOnDisk(d, Layout(), x) <==> IsFree(x)
      {
        if IsCovered(x) {
          CleanPageAgrees(d, x);
        } else if FreeOnDisk(d, Layout(), x) {
          var i: nat :| i < |Layout().pages| && FreeInPage(d, Layout(), i, x);
          PageHoldsRange(Layout(), i, x);
          PageSlice(perPage, |dirty|, i);
          assert false;
        }
      }
    }

    // ---- Flushing -------------------------------------------------------------------

    /** Write every dirty page and nothing else; a page stops being dirty only once it
        has been written. At every point of the flush the disk calls nothing free that
        neither it nor the memory called free before. */
    method Flush(m: Medium) returns (r: Result<nat, AllocError>)
      requires Valid() && |m.blocks| == blockCount
      modifies this`dirty, m
      ensures Valid() && |m.blocks| == blockCount && |dirty| == |old(dirty)|
      ensures r.Ok? <==> forall i :: 0 <= i < |dirty| && old(dirty[i]) ==> HasPage(i)
      ensures r.Ok? ==> forall i :: 0 <= i < |dirty| ==> !dirty[i]
      ensures r.Err? ==>
                r.error.PageMissing? && r.error.index < |dirty| && old(dirty[r.error.index]) && !HasPage(r.error.index)
      ensures old(Synced(m.blocks)) ==> r.Ok? && Synced(m.blocks)
      ensures old(Synced(m.blocks)) ==> Flushed(Layout(), Free(), old(m.blocks), m.blocks)
      ensures old(Synced(m.blocks)) ==> FlushTrail(Layout(), Free(), old(m.blocks), old(m.trail), m.trail)
      ensures old(Synced(m.blocks)) ==> forall x :: FreeOnDisk(m.blocks, Layout(), x) <==> x in Free()
      ensures old(m.Remembers()) ==> m.Remembers()
    {
      hide FreeBit, FreeBits, FreeOnDisk, Flushed;
      ghost var g, free, d, synced := Layout(), Free(), m.blocks, Synced(m.blocks);
      NothingFlushed(g, free, d);
      var written := 0;
      var i := 0;
      while i < |dirty|
        invariant 0 <= i <= |dirty| == |old(dirty)| && |m.blocks| == blockCount && Layout() == g
        invariant forall j :: 0 <= j < i ==> !dirty[j] && (old(dirty[j]) ==> HasPage(j))
        invariant forall j :: i <= j < |dirty| ==> dirty[j] == old(dirty[j])
        invariant old(m.Remembers()) ==> m.Remembers()
        invariant synced ==>
                  Synced(m.blocks) && Flushed(g, free, d, m.blocks) && FlushTrail(g, free, d, old(m.trail), m.trail)
      {
        if dirty[i] {
          ghost var before := m.blocks;
          var ok := FlushPage(m, i);
          if !ok {
            return Err(PageMissing(i));
          }
          if synced { PageWritten(d, before, m.blocks, i); }
          written := written + 1;
        }
        i := i + 1;
      }
      if Synced(m.blocks) { CleanDiskAgrees(m.blocks); }
      r := Ok(written);
    }

    predicate HasPage(i: nat)
      reads this
    {
      i < |pages| && 0 < pages[i] < blockCount
    }

    method FlushPage(m: Medium, i: nat) returns (ok: bool)
      requires Valid() && |m.blocks| == blockCount && i < |dirty|
      modifies this`dirty, m
      ensures ok == HasPage(i)
      ensures Valid() && |m.blocks| == blockCount
      ensures !ok ==> m.blocks == old(m.blocks) && m.trail == old(m.trail) && dirty == old(dirty)
      ensures ok ==> dirty == old(dirty)[i := false]
      ensures ok ==> m.blocks == old(m.blocks)[pages[i] := Bitmap(PageWords(i))] && m.trail == old(m.trail) + [m.blocks]
      ensures old(Synced(m.blocks)) ==> Synced(m.blocks)
    {
      var page := if i < |pages| then pages[i] else 0;
      if page == 0 || page >= blockCount {
        return false;
      }
      m.Write(page, Bitmap(PageWords(i)));
      dirty := dirty[i := false];
      ok := true;
    }

    lemma PageWritten(d: Disk, before: Disk, after: Disk, i: nat)
      requires Valid() && PagesGood() && |before| == blockCount && i < |dirty|
      requires Flushed(Layout(), Free(), d, before)
      requires after == before[pages[i] := Bitmap(PageWords(i))]
      ensures Flushed(Layout(), Free(), d, after)
    {
      var g := Layout();
      assert g.pages[i] == pages[i];
      forall x | FreeOnDisk(after, g, x)
        ensures FreeOnDisk(d, g, x) || x in Free()
      {
        if !FreeOnDisk(before, g, x) { WrittenFree(before, after, i, x); }
      }
    }

    /** A block the disk calls free only since page `i` was written is free in memory. */
    lemma WrittenFree(before: Disk, after: Disk, i: nat, x: Lba)
      requires Valid() && PagesGood() && |before| == blockCount && i < |dirty|
      requires after == before[pages[i] := Bitmap(PageWords(i))]
      requires FreeOnDisk(after, Layout(), x) && !FreeOnDisk(before, Layout(), x)
      ensures x in Free()
    {
      var g := Layout();
      hide FreeBit;
      var j: nat :| j < |g.pages| && FreeInPage(after, g, j, x);
      assert j != i ==> FreeInPage(before, g, j, x);
      PageSlice(perPage, |dirty|, i);
      PagesHoldTheWords(after, g, words, i, x);
      PageHoldsRange(g, i, x);
    }
  }
}
