/**
 Filling a volume just formatted: blocks are handed out by two cursors, contents from the
 front of the volume and headers from behind what the format wrote, until the first one
 runs into the format and joins the other; the bitmap is written once, at the end, from
 where the cursors stand.
 */
module Populating {
  import opened Words
  import opened Disk
  import opened Directories
  import opened Allocation

  datatype PopulateError = VolumeFull(count: nat) | FileTooLarge(len: nat)

  /** A stretch of blocks, the last one excluded. */
  datatype Range = Range(start: nat, end: nat)

  predicate InRange(r: Range, x: Lba) {
    r.start <= x < r.end
  }

  ghost predicate InSome(ranges: seq<Range>, x: Lba) {
    exists i :: 0 <= i < |ranges| && InRange(ranges[i], x)
  }

  lemma ClearedAnyway(words: seq<Word>, bit: nat)
    requires bit < 32 * |words|
    ensures forall b :: FreeBit(Cleared(words, bit), b) <==> FreeBit(words, b) && b != bit
  {
    forall b
      ensures FreeBit(Cleared(words, bit), b) <==> FreeBit(words, b) && b != bit
    {
      if 0 <= b < 32 * |words| && b / 32 == bit / 32 { ClearedBit(words[bit / 32], bit % 32, b % 32); }
    }
  }

  lemma OnesAreFree(words: seq<Word>)
    requires forall i :: 0 <= i < |words| ==> words[i] == ALL_ONES
    ensures forall b :: 0 <= b < 32 * |words| ==> FreeBit(words, b)
  {
    forall b | 0 <= b < 32 * |words|
      ensures FreeBit(words, b)
    {
      ZeroBit(b % 32);
      NotBit(0, b % 32);
    }
  }

  /** Clear the bits of one range, as far as it is inside the volume. */
  method ClearRange(words: seq<Word>, reserved: nat, count: nat, r: Range) returns (out: seq<Word>)
    requires count <= reserved || count - reserved <= 32 * |words|
    ensures |out| == |words|
    ensures forall x: Lba :: reserved <= x ==>
              (FreeIn(out, reserved, x) <==> FreeIn(words, reserved, x) && !(InRange(r, x) && x < count))
  {
    var from := if r.start < reserved then reserved else r.start;
    var end := if count < r.end then count else r.end;
    var lba := from;
    out := words;
    while lba < end
      invariant from <= lba && |out| == |words|
      invariant forall x: Lba :: reserved <= x ==>
                (FreeIn(out, reserved, x) <==> FreeIn(words, reserved, x) && !(from <= x < lba && x < end))
    {
      ClearedAnyway(out, lba - reserved);
      ghost var was := out;
      out := Cleared(out, lba - reserved);
      assert forall x: Lba :: reserved <= x ==> (FreeIn(out, reserved, x) <==> FreeIn(was, reserved, x) && x != lba);
      lba := lba + 1;
    }
  }

  /** Longwords for the bitmap's pages, every bit free but those of the ranges. Ranges may
      overlap, and may reach over either end of the volume. */
  method PackRanges(reserved: nat, count: nat, ranges: seq<Range>, wordsPerPage: nat) returns (words: seq<Word>)
    requires wordsPerPage > 0
    ensures count <= reserved || count - reserved <= 32 * |words|
    ensures forall x: Lba :: reserved <= x ==>
              (FreeIn(words, reserved, x) <==> x - reserved < 32 * |words| && !(InSome(ranges, x) && x < count))
  {
    hide FreeBit, InRange, InSome;
    var need := if count < reserved then 0 else count - reserved;
    var perPage := 32 * wordsPerPage;
    var pages := need / perPage + if need % perPage != 0 then 1 else 0;
    words := seq(pages * wordsPerPage, i => ALL_ONES);
    OnesAreFree(words);
    PagesCover(need, wordsPerPage, pages);
    NothingFreeBeyond(words);
    NoRange(ranges);
    var i := 0;
    while i < |ranges|
      invariant 0 <= i <= |ranges| && (count <= reserved || count - reserved <= 32 * |words|)
      invariant forall x: Lba :: reserved <= x ==>
                  (FreeIn(words, reserved, x) <==>
                      x - reserved < 32 * |words| && !(InSome(ranges[..i], x) && x < count))
    {
      words := ClearRange(words, reserved, count, ranges[i]);
      OneRangeMore(ranges, i);
      i := i + 1;
    }
    assert ranges[..i] == ranges;
  }

  lemma NothingFreeBeyond(words: seq<Word>)
    ensures forall b :: FreeBit(words, b) ==> 0 <= b < 32 * |words|
  {}

  lemma NoRange(ranges: seq<Range>)
    ensures forall x: Lba :: !InSome(ranges[..0], x)
  {}

  lemma PagesCover(need: nat, wordsPerPage: nat, pages: nat)
    requires wordsPerPage > 0 && pages == need / (32 * wordsPerPage) + if need % (32 * wordsPerPage) != 0 then 1 else 0
    ensures need <= 32 * (pages * wordsPerPage)
  {
    var d := 32 * wordsPerPage;
    assert need == d * (need / d) + need % d;
    assert 32 * (pages * wordsPerPage) == pages * d;
    assert pages * d >= (need / d) * d + if need % d != 0 then d else 0;
  }

  lemma OneRangeMore(ranges: seq<Range>, i: nat)
    requires i < |ranges|
    ensures forall x: Lba :: InSome(ranges[..i + 1], x) <==> InSome(ranges[..i], x) || InRange(ranges[i], x)
  {
    var more, was := ranges[..i + 1], ranges[..i];
    assert more[i] == ranges[i] && forall j :: 0 <= j < i ==> more[j] == was[j];
  }

  class Populator {
    const reserved: nat
    const count: nat
    /** What the format wrote is `span.start..span.end`. */
    const span: Range
    var nextMeta: nat
    var nextData: nat
    var merged: bool
    var dataUsed: nat
    var metaUsed: nat
    /** What has been handed out, in order. */
    ghost var handed: seq<Lba>

    ghost predicate Valid()
      reads this
    {
      && reserved <= span.start < span.end <= nextMeta <= count
      && reserved <= nextData <= span.start && (merged ==> nextData == span.start)
      && NoRepeats(handed) && |handed| == dataUsed + metaUsed == (nextData - reserved) + (nextMeta - span.end)
      && forall x: Lba :: x in handed <==> reserved <= x < nextData || span.end <= x < nextMeta
    }

    /** How many blocks are left for contents. */
    function Left(): nat
      requires nextData <= span.start && nextMeta <= count
      reads this
    {
      (span.start - nextData) + (count - nextMeta)
    }

    constructor (reserved: nat, count: nat, span: Range)
      requires reserved <= span.start < span.end <= count
      ensures this.reserved == reserved && this.count == count && this.span == span
      ensures Valid() && handed == []
    {
      this.reserved, this.count, this.span := reserved, count, span;
      nextMeta, nextData := span.end, reserved;
      merged := reserved >= span.start;
      dataUsed, metaUsed := 0, 0;
      handed := [];
    }

    /** The next block of contents: one no one has, outside of what the format wrote. It is
        refused only when no block of the volume is left. */
    method AllocData() returns (r: Result<Lba, PopulateError>)
      requires Valid()
      modifies this
      ensures Valid()
      ensures r.Ok? ==>
                r.value !in old(handed) && handed == old(handed) + [r.value] && reserved <= r.value < count
                && !InRange(span, r.value)
      ensures r.Ok? ==> r.value == if old(nextData) < span.start then old(nextData) else old(nextMeta)
      ensures if r.Ok? then Left() == old(Left()) - 1 else Left() == old(Left()) == 0 && r.error.VolumeFull?
      ensures r.Err? ==> handed == old(handed) && forall x: Lba :: reserved <= x < count ==>
                x in handed || InRange(span, x)
    {
      if !merged {
        if nextData < span.start {
          r := Ok(nextData);
          HandedOut(handed, nextData);
          nextData := nextData + 1;
          dataUsed := dataUsed + 1;
          handed := handed + [r.value];
          return;
        }
        merged := true;
      }
      r := TakeMetaFrontier();
      if r.Ok? {
        dataUsed := dataUsed + 1;
        handed := handed + [r.value];
      }
    }

    /** The next block for a header, a cache or a comment. It is refused when the blocks
        behind the format are used up, whatever is left in front of it. */
    method AllocMeta() returns (r: Result<Lba, PopulateError>)
      requires Valid()
      modifies this
      ensures Valid()
      ensures r.Ok? ==>
                r.value !in old(handed) && handed == old(handed) + [r.value] && span.end <= r.value < count
                && r.value == old(nextMeta)
      ensures r.Err? ==> handed == old(handed)
      ensures r.Ok? <==> exists x: Lba :: span.end <= x < count && x !in old(handed)
    {
      assert nextMeta < count ==> nextMeta !in handed;
      r := TakeMetaFrontier();
      if r.Ok? {
        metaUsed := metaUsed + 1;
        handed := handed + [r.value];
      }
    }

    method TakeMetaFrontier() returns (r: Result<Lba, PopulateError>)
      requires Valid()
      modifies this`nextMeta
      ensures if old(nextMeta) >= count then r == Err(PopulateError.VolumeFull(count)) && nextMeta == old(nextMeta)
              else r == Ok(old(nextMeta)) && nextMeta == old(nextMeta) + 1 && NoRepeats(handed + [r.value])
    {
      if nextMeta >= count {
        return Err(PopulateError.VolumeFull(count));
      }
      HandedOut(handed, nextMeta);
      r := Ok(nextMeta);
      nextMeta := nextMeta + 1;
    }

    /** The blocks in use: the format's and the ones handed out. */
    function BlocksUsed(): nat
      requires span.start <= span.end
      reads this
    {
      span.end - span.start + dataUsed + metaUsed
    }

    /** What the bitmap and the root's count come to at the end: allocated are the blocks
        of the format and those handed out, no others, and the count is of these. */
    method Finish(wordsPerPage: nat) returns (words: seq<Word>, used: nat)
      requires Valid() && wordsPerPage > 0
      ensures forall x: Lba :: reserved <= x < count ==>
                (FreeIn(words, reserved, x) <==> x !in handed && !InRange(span, x))
      ensures forall x: Lba :: count <= x < reserved + 32 * |words| ==> FreeIn(words, reserved, x)
      ensures used == span.end - span.start + |handed| == |Used()|
    {
      var end := if merged && span.start < nextData then span.start else nextData;
      var ranges := [Range(reserved, end), span, Range(span.end, nextMeta)];
      words := PackRanges(reserved, count, ranges, wordsPerPage);
      used := BlocksUsed();
      assert InRange(ranges[1], span.start);
      forall x: Lba
        ensures InSome(ranges, x) <==> x in handed || InRange(span, x)
      {
        assert InSome(ranges, x) <==> InRange(ranges[0], x) || InRange(ranges[1], x) || InRange(ranges[2], x);
      }
      UsedCount();
    }

    ghost function Used(): set<Lba>
      reads this
    {
      set x: Lba | x < count && (x in handed || InRange(span, x))
    }

    lemma UsedCount()
      requires Valid()
      ensures |Used()| == span.end - span.start + |handed|
    {
      SizeOfSet(handed);
      SpanCount(span.start, span.end);
      assert Used() == SetOf(handed) + Span(span.start, span.end);
      assert SetOf(handed) !! Span(span.start, span.end);
    }
  }

  function Span(lo: nat, hi: nat): set<Lba> {
    set x: Lba | x < hi && InRange(Range(lo, hi), x)
  }

  lemma {:induction false} SpanCount(lo: nat, hi: nat)
    requires lo <= hi
    ensures |Span(lo, hi)| == hi - lo
    decreases hi - lo
  {
    if lo < hi {
      SpanCount(lo, hi - 1);
      assert Span(lo, hi) == Span(lo, hi - 1) + {hi - 1};
    } else {
      assert Span(lo, hi) == {};
    }
  }

  lemma HandedOut(handed: seq<Lba>, x: Lba)
    requires NoRepeats(handed) && x !in handed
    ensures NoRepeats(handed + [x])
  {}
}
