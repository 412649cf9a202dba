/**
 A shrink as far as the bitmap goes: after the checks and the move of the root, what the
 bitmap had at and past the cut, or where the new root now is, has to be found a place below.
 Whether there is one for each is what decides it.
 */
module Shrinking {
  import opened Words
  import opened Disk
  import opened Directories
  import opened Reader
  import opened Chains
  import opened Allocation
  import opened Resizing
  import opened Repairing

  /** Longwords in a page of the bitmap, and pages an extension block lists. */
  datatype Layout = Layout(perPage: nat, perExt: nat)

  /** The pages the root lists itself. */
  const ROOT_PAGES := 25

  predicate Usable(l: Layout) {
    l.perPage > 0 && l.perExt > 0
  }

  function PagesFor(l: Layout, reserved: nat, n: nat): nat
    requires Usable(l) && reserved <= n
  {
    CeilDiv(n - reserved, 32 * l.perPage)
  }

  function ExtsFor(l: Layout, pages: nat): nat
    requires Usable(l)
  {
    if pages > ROOT_PAGES then CeilDiv(pages - ROOT_PAGES, l.perExt) else 0
  }

  /** The page that covers block `x`. */
  function PageOf(l: Layout, reserved: nat, x: Lba): nat
    requires Usable(l) && reserved <= x
  {
    (x - reserved) / 32 / l.perPage
  }

  lemma PageExists(l: Layout, reserved: nat, n: nat, x: Lba)
    requires Usable(l) && reserved <= x < n
    ensures PageOf(l, reserved, x) < PagesFor(l, reserved, n)
    ensures (x - reserved) / 32 < l.perPage * PagesFor(l, reserved, n)
  {
    var w, pages := (x - reserved) / 32, PagesFor(l, reserved, n);
    assert n - reserved <= pages * (32 * l.perPage) == 32 * (pages * l.perPage);
    assert w < pages * l.perPage;
    QuotientBelow(w, l.perPage, pages);
  }

  lemma QuotientBelow(w: nat, d: nat, q: nat)
    requires d > 0 && w < q * d
    ensures w / d < q
  {
    if w / d >= q { MulMonotone(q, w / d, d); }
  }

  // ---- What is left of the bitmap ------------------------------------------------------------------

  /** What a shrink may move, in a row. */
  function Parts(v: Survey): seq<Lba> {
    [v.root] + v.pages + v.exts + v.cache
  }

  /** The survey is of a volume in order, with `words` for its bitmap; beside the root, the
      bitmap and the root's cache a walk comes to `held`. */
  ghost predicate Surveyed(v: Survey, l: Layout, words: seq<Word>, held: set<Lba>) {
    && Usable(l) && 0 < v.reserved < v.count
    && |v.pages| == PagesFor(l, v.reserved, v.count) && |v.exts| == ExtsFor(l, |v.pages|)
    && |words| == l.perPage * |v.pages| && |v.bits| == v.count - v.reserved
    && (forall i :: 0 <= i < |v.bits| ==> v.bits[i] == Some(!FreeBit(words, i)))
    && NoRepeats(Parts(v))
    && (forall x :: Movable(v, x) || x in held ==> Reports(v, x, true))
    && forall x :: x in held ==> !Movable(v, x)
  }

  /** The extension blocks up to `k` can be followed: each is below the cut. */
  predicate Followed(v: Survey, n: nat, k: nat) {
    k < |v.exts| && forall j :: 0 <= j <= k ==> v.exts[j] < n
  }

  /** Page `i` is among those the root and the extension blocks still list. */
  predicate Listed(v: Survey, l: Layout, n: nat, i: nat)
    requires Usable(l)
  {
    i < ROOT_PAGES || Followed(v, n, (i - ROOT_PAGES) / l.perExt)
  }

  /** What page `i` is after the root has moved: its old block, if that is listed, below the
      cut and not under the new root. */
  function PageKept(v: Survey, l: Layout, n: nat, i: nat): Lba
    requires Usable(l) && v.reserved < n && i < |v.pages|
  {
    if Listed(v, l, n, i) && v.pages[i] < n && v.pages[i] != RootAt(n, v.reserved) then v.pages[i] else 0
  }

  function PagesKept(v: Survey, l: Layout, n: nat): (kept: seq<Lba>)
    requires Usable(l) && v.reserved < n && PagesFor(l, v.reserved, n) <= |v.pages|
    ensures |kept| == PagesFor(l, v.reserved, n)
  {
    seq(PagesFor(l, v.reserved, n), i requires 0 <= i < PagesFor(l, v.reserved, n) => PageKept(v, l, n, i))
  }

  function ExtsKept(v: Survey, l: Layout, n: nat): (kept: seq<Lba>)
    requires Usable(l) && v.reserved < n && ExtsFor(l, PagesFor(l, v.reserved, n)) <= |v.exts|
    ensures |kept| == ExtsFor(l, PagesFor(l, v.reserved, n))
  {
    seq(ExtsFor(l, PagesFor(l, v.reserved, n)), k requires 0 <= k < ExtsFor(l,
        PagesFor(l, v.reserved, n)) => if Followed(v, n, k) then v.exts[k] else 0)
  }

  /** What the shrink knows to be free: where the root was, and the pages and extension blocks
      beyond what the new size needs. */
  ghost predicate Obsolete(v: Survey, l: Layout, n: nat, x: Lba)
    requires Usable(l) && v.reserved < n
  {
    var pages := PagesFor(l, v.reserved, n);
    || x == v.root
    || (exists i :: pages <= i < |v.pages| && v.pages[i] == x)
    || exists i :: ExtsFor(l, pages) <= i < |v.exts| && v.exts[i] == x
  }

  /** The blocks there are for what is missing: below the cut, reached by no walk, and called
      free by the page that covers them, if that has been kept. */
  ghost function Vacant(v: Survey, l: Layout, n: nat, held: set<Lba>, cache: seq<Lba>): set<Lba>
    requires Usable(l) && v.reserved < n && PagesFor(l, v.reserved, n) <= |v.pages|
  {
    set x: Lba | v.reserved <= x < n && x != RootAt(n, v.reserved) && x !in held && x !in cache && Untold(v, l, n, x)
  }

  ghost predicate Untold(v: Survey, l: Layout, n: nat, x: Lba)
    requires Usable(l) && v.reserved < n && v.reserved <= x && PagesFor(l, v.reserved, n) <= |v.pages|
  {
    PageOf(l, v.reserved, x) < |v.pages| && PageKept(v, l, n, PageOf(l, v.reserved, x)) != 0 ==>
        Reports(v, x, false) || Obsolete(v, l, n, x)
  }

  /** Everything of the bitmap that has lost its place finds one. */
  ghost predicate Refurnishable(v: Survey, l: Layout, n: nat, held: set<Lba>, cache: seq<Lba>)
    requires Usable(l) && v.reserved < n && PagesFor(l, v.reserved, n) <= |v.pages|
              && ExtsFor(l, PagesFor(l, v.reserved, n)) <= |v.exts|
  {
    Enough(Vacant(v, l, n, held, cache), PagesKept(v, l, n) + ExtsKept(v, l, n), RootAt(n, v.reserved) + 1)
  }

  // ---- The bits of what is obsolete ------------------------------------------------------------------

  /** The page that covers `x` is where a bit of it can still be cleared. */
  predicate Patchable(v: Survey, l: Layout, n: nat, claimed: seq<Lba>, x: Lba)
    requires Usable(l)
  {
    && v.reserved <= x && PageOf(l, v.reserved, x) < |v.pages|
    && v.pages[PageOf(l, v.reserved, x)] < n && v.pages[PageOf(l, v.reserved, x)] !in claimed
  }

  /** Call one block free in the bitmap on the disk, if its page is still there. */
  method FreeOnDisk(v: Survey, l: Layout, n: nat, claimed: seq<Lba>, words: seq<Word>, x: Lba) returns (now: seq<Word>)
    requires Usable(l) && |words| == l.perPage * |v.pages|
    ensures |now| == |words|
    ensures forall b :: FreeBit(now, b) <==>
              FreeBit(words, b) || (b == x - v.reserved && Patchable(v, l, n, claimed, x))
  {
    if x < v.reserved || PageOf(l, v.reserved, x) >= |v.pages| {
      return words;
    }
    var page := v.pages[PageOf(l, v.reserved, x)];
    if page >= n || page in claimed {
      return words;
    }
    var bit := x - v.reserved;
    InThatPage(l, bit, |v.pages|);
    if FreeBit(words, bit) {
      return words;
    }
    RaisedBits(words, bit, 32 * |words|);
    now := Raised(words, bit);
  }

  lemma InThatPage(l: Layout, bit: nat, pages: nat)
    requires Usable(l) && bit / 32 / l.perPage < pages
    ensures bit < 32 * (l.perPage * pages)
  {
    var w := bit / 32;
    MulMonotone(w / l.perPage + 1, pages, l.perPage);
    assert w < (w / l.perPage + 1) * l.perPage;
  }

  /** What is obsolete and below the cut, in the order it is freed. */
  method ListObsolete(v: Survey, l: Layout, n: nat) returns (list: seq<Lba>)
    requires Usable(l) && v.reserved < n && PagesFor(l, v.reserved, n) <= |v.pages|
              && ExtsFor(l, PagesFor(l, v.reserved, n)) <= |v.exts|
    ensures forall x :: x in list ==> x < n && Obsolete(v, l, n, x)
    ensures forall x: Lba :: x < n && Obsolete(v, l, n, x) ==> x in list || x == v.root == RootAt(n, v.reserved)
  {
    list := [];
    if RootAt(n, v.reserved) != v.root && v.root < n {
      list := [v.root];
    }
    var pages := PagesFor(l, v.reserved, n);
    var i := pages;
    while i < |v.pages|
      invariant pages <= i <= |v.pages|
      invariant forall x :: x in list ==> x < n && Obsolete(v, l, n, x)
      invariant v.root < n ==> v.root in list || v.root == RootAt(n, v.reserved)
      invariant forall k :: pages <= k < i && v.pages[k] < n ==> v.pages[k] in list
    {
      if v.pages[i] < n {
        list := list + [v.pages[i]];
      }
      i := i + 1;
    }
    var exts := ExtsFor(l, pages);
    i := exts;
    while i < |v.exts|
      invariant exts <= i <= |v.exts|
      invariant forall x :: x in list ==> x < n && Obsolete(v, l, n, x)
      invariant v.root < n ==> v.root in list || v.root == RootAt(n, v.reserved)
      invariant forall k :: pages <= k < |v.pages| && v.pages[k] < n ==> v.pages[k] in list
      invariant forall k :: exts <= k < i && v.exts[k] < n ==> v.exts[k] in list
    {
      if v.exts[i] < n {
        list := list + [v.exts[i]];
      }
      i := i + 1;
    }
  }

  /** `now` is `words` with everything obsolete called free that still can be. */
  ghost predicate Freed(v: Survey, l: Layout, n: nat, claimed: seq<Lba>, words: seq<Word>, now: seq<Word>)
    requires Usable(l) && v.reserved < n
  {
    forall x: Lba :: v.reserved <= x < n && x != RootAt(n, v.reserved) ==> FreedAt(v, l, n, claimed, words, now, x)
  }

  ghost predicate FreedAt(v: Survey, l: Layout, n: nat, claimed: seq<Lba>, words: seq<Word>, now: seq<Word>, x: Lba)
    requires Usable(l) && v.reserved < n && v.reserved <= x
  {
    FreeBit(now, x - v.reserved) <==>
        FreeBit(words, x - v.reserved) || (Obsolete(v, l, n, x) && Patchable(v, l, n, claimed, x))
  }

  /** Call all of it free. */
  method FreeObsolete(v: Survey, l: Layout, n: nat, claimed: seq<Lba>, words: seq<Word>, ghost held: set<Lba>)
          returns (now: seq<Word>)
    requires Surveyed(v, l, words, held) && v.reserved < n
    requires PagesFor(l, v.reserved, n) <= |v.pages| && ExtsFor(l, PagesFor(l, v.reserved, n)) <= |v.exts|
    ensures |now| == |words| && Freed(v, l, n, claimed, words, now)
  {
    hide FreeBit, Obsolete, Patchable, PagesFor, ExtsFor;
    var list := ListObsolete(v, l, n);
    now := words;
    var i := 0;
    while i < |list|
      invariant 0 <= i <= |list| && |now| == |words|
      invariant forall b: nat :: FreeBit(now, b) <==> FreeBit(words, b) || Patched(v, l, n, claimed, list[..i], b)
    {
      now := FreeOnDisk(v, l, n, claimed, now, list[i]);
      OneMorePatched(v, l, n, claimed, list, i);
      i := i + 1;
    }
    assert list[..i] == list;
    forall x: Lba | v.reserved <= x < n && x != RootAt(n, v.reserved)
      ensures FreedAt(v, l, n, claimed, words, now, x)
    {
      assert Patched(v, l, n, claimed, list, x - v.reserved) <==>
          Obsolete(v, l, n, x) && Patchable(v, l, n, claimed, x);
    }
  }

  /** Bit `b` is that of a block on the list that can be called free. */
  ghost predicate Patched(v: Survey, l: Layout, n: nat, claimed: seq<Lba>, list: seq<Lba>, b: nat)
    requires Usable(l)
  {
    b + v.reserved in list && Patchable(v, l, n, claimed, b + v.reserved)
  }

  lemma OneMorePatched(v: Survey, l: Layout, n: nat, claimed: seq<Lba>, list: seq<Lba>, i: nat)
    requires Usable(l) && i < |list|
    ensures forall b: nat :: Patched(v, l, n, claimed, list[..i + 1], b) <==>
              Patched(v, l, n, claimed, list[..i], b) || (b == list[i] - v.reserved
                  && Patchable(v, l, n, claimed, list[i]))
  {
    hide Patchable;
    assert list[..i + 1] == list[..i] + [list[i]];
    forall b: nat
      ensures Patched(v, l, n, claimed, list[..i + 1], b) <==>
                Patched(v, l, n, claimed, list[..i], b)
                    || (b == list[i] - v.reserved && Patchable(v, l, n, claimed, list[i]))
    {
      assert b + v.reserved in list[..i + 1] <==> b + v.reserved in list[..i] || b + v.reserved == list[i];
    }
  }

  // ---- Reading the bitmap back -----------------------------------------------------------------------

  lemma PageOfExt(l: Layout, i: nat, k: nat)
    requires Usable(l) && i >= ROOT_PAGES
    ensures (i - ROOT_PAGES) / l.perExt < k <==> i < ROOT_PAGES + k * l.perExt
  {
    var d, q := l.perExt, (i - ROOT_PAGES) / l.perExt;
    if q < k { MulMonotone(q + 1, k, d); } else { MulMonotone(k, q, d); }
    assert q * d <= i - ROOT_PAGES < (q + 1) * d;
  }

  /** The pointers as the root and the extension blocks now list them, 0 where the list has
      ended: it ends at an extension block past the cut. */
  method ReadPointers(v: Survey, l: Layout, n: nat) returns (pages: seq<Lba>, exts: seq<Lba>)
    requires Usable(l) && v.reserved < n && PagesFor(l, v.reserved, n) <= |v.pages|
              && ExtsFor(l, PagesFor(l, v.reserved, n)) <= |v.exts|
    ensures exts == ExtsKept(v, l, n) && |pages| == PagesFor(l, v.reserved, n)
    ensures forall i :: 0 <= i < |pages| ==> pages[i] == if Listed(v, l, n, i) then v.pages[i] else 0
  {
    var needPages := PagesFor(l, v.reserved, n);
    var needExts := ExtsFor(l, needPages);
    var upTo := ROOT_PAGES;
    pages := v.pages[..Min(upTo, needPages)];
    exts := [];
    while |exts| < needExts && v.exts[|exts|] < n
      invariant |exts| <= needExts && exts == v.exts[..|exts|] && forall j :: 0 <= j < |exts| ==> v.exts[j] < n
      invariant upTo == ROOT_PAGES + |exts| * l.perExt && pages == v.pages[..Min(upTo, needPages)]
    {
      OneExtMore(|exts|, l.perExt);
      upTo := upTo + l.perExt;
      pages := pages + v.pages[|pages|..Min(upTo, needPages)];
      exts := exts + [v.exts[|exts|]];
    }
    ListedSoFar(v, l, n, |exts|, needPages);
    exts := exts + seq(needExts - |exts|, _ => 0);
    pages := pages + seq(needPages - |pages|, _ => 0);
  }

  lemma OneExtMore(k: nat, d: nat)
    ensures (k + 1) * d == k * d + d
  {}

  /** Where the list ends. */
  lemma ListedSoFar(v: Survey, l: Layout, n: nat, k: nat, pages: nat)
    requires Usable(l) && k <= ExtsFor(l, pages) <= |v.exts|
    requires (forall j :: 0 <= j < k ==> v.exts[j] < n) && (k < ExtsFor(l, pages) ==> v.exts[k] >= n)
    ensures forall j :: 0 <= j < ExtsFor(l, pages) ==> (Followed(v, n, j) <==> j < k)
    ensures forall i :: 0 <= i < pages ==> (Listed(v, l, n, i) <==> i < ROOT_PAGES + k * l.perExt)
  {
    forall i | 0 <= i < pages
      ensures Listed(v, l, n, i) <==> i < ROOT_PAGES + k * l.perExt
    {
      if i >= ROOT_PAGES {
        PageOfExt(l, i, k);
        PageOfExt(l, i, ExtsFor(l, pages));
        assert pages - ROOT_PAGES <= ExtsFor(l, pages) * l.perExt;
      }
    }
  }

  /** Everything a walk comes to once the root and its cache have moved. */
  function ReachedAfter(v: Survey, n: nat, held: set<Lba>, cache: seq<Lba>): set<Lba>
    requires v.reserved < n
  {
    held + {RootAt(n, v.reserved)} + SetOf(cache)
  }

  /** The cache's new places are no part of the bitmap. */
  lemma CacheApart(v: Survey, l: Layout, words: seq<Word>, held: set<Lba>, n: nat, cache: seq<Lba>, x: Lba)
    requires Surveyed(v, l, words, held) && v.reserved < n && |cache| == |v.cache|
    requires forall i :: 0 <= i < |v.cache| ==> PlacedAt(v, n, v.cache, cache, i)
    requires x in v.pages || x in v.exts
    ensures x !in cache && x !in held && x != v.root
  {
    var all := Parts(v);
    var a :| 0 < a < 1 + |v.pages| + |v.exts| && all[a] == x by {
      if i :| 0 <= i < |v.pages| && v.pages[i] == x { assert all[1 + i] == x; }
      else { var i :| 0 <= i < |v.exts| && v.exts[i] == x; assert all[1 + |v.pages| + i] == x; }
    }
    assert Movable(v, x) && Reports(v, x, true);
    assert all[0] == v.root;
    forall i | 0 <= i < |cache|
      ensures cache[i] != x
    {
      assert PlacedAt(v, n, v.cache, cache, i);
      assert all[1 + |v.pages| + |v.exts| + i] == v.cache[i];
    }
  }

  /** Where the pointers are to different blocks that no walk comes to, those below the cut and
      not claimed are kept. */
  lemma KeptIs(was: seq<Lba>, claimed: seq<Lba>, reserved: nat, n: nat, reached: set<Lba>, kept: seq<Lba>,
          all: seq<Lba>, i: nat)
    requires i < |was| == |kept| && reserved > 0 && Distinct(was)
    requires forall k :: 0 <= k < |was| ==>
              kept[k] == 0 || (kept[k] == was[k] && reserved <= was[k] < n && was[k] !in reached)
    requires forall x :: x in all <==> x in claimed || (x != 0 && x in kept)
    requires forall x :: x in was && reserved <= x < n && x !in reached ==> x in all
    requires forall x :: x in kept && x != 0 ==> x !in claimed
    ensures kept[i] == if reserved <= was[i] < n && was[i] !in reached && was[i] !in claimed then was[i] else 0
  {
    assert kept[i] in kept;
    if reserved <= was[i] < n && was[i] !in reached && was[i] !in claimed {
      assert was[i] in was;
      var j :| 0 <= j < |kept| && kept[j] == was[i];
    }
  }

  /** The pages and extension blocks that keep their places are different blocks below the cut. */
  lemma KeptApart(v: Survey, l: Layout, words: seq<Word>, held: set<Lba>, n: nat)
    requires Surveyed(v, l, words, held) && v.reserved < n
    requires PagesFor(l, v.reserved, n) <= |v.pages| && ExtsFor(l, PagesFor(l, v.reserved, n)) <= |v.exts|
    ensures Distinct(PagesKept(v, l, n) + ExtsKept(v, l, n))
    ensures forall x :: x in PagesKept(v, l, n) + ExtsKept(v, l, n) && x != 0 ==> v.reserved <= x < n
  {
    hide NoRepeats, FreeBit, ExtsFor, CeilDiv;
    var all, a, b := Parts(v), PagesKept(v, l, n), ExtsKept(v, l, n);
    forall i | 0 <= i < |a + b| && (a + b)[i] != 0
      ensures InParts(v, |a|, i) < |all| && (a + b)[i] == all[InParts(v, |a|, i)] && v.reserved <= (a + b)[i] < n
    {
      if i < |a| {
        assert (a + b)[i] == PageKept(v, l, n, i) && all[1 + i] == v.pages[i];
        assert Movable(v, v.pages[i]);
      } else {
        assert (a + b)[i] == b[i - |a|] == v.exts[i - |a|] && all[1 + |v.pages| + i - |a|] == v.exts[i - |a|];
        assert Movable(v, v.exts[i - |a|]);
      }
    }
    DistinctBy(v, a + b, |a|, all);
  }

  function InParts(v: Survey, pages: nat, i: nat): nat {
    if i < pages then 1 + i else 1 + |v.pages| + i - pages
  }

  lemma DistinctBy(v: Survey, s: seq<Lba>, pages: nat, all: seq<Lba>)
    requires pages <= |v.pages| && NoRepeats(all)
    requires forall i :: 0 <= i < |s| && s[i] != 0 ==> InParts(v, pages, i) < |all| && s[i] == all[InParts(v, pages, i)]
    ensures Distinct(s)
  {
    forall i, j | 0 <= i < j < |s| && s[i] != 0
      ensures s[i] != s[j]
    {
      if s[j] != 0 { assert InParts(v, pages, i) < InParts(v, pages, j); }
    }
  }

  /** The words of the pages that are kept; of the others nothing is known. */
  function WordsKept(v: Survey, l: Layout, n: nat, words: seq<Word>): seq<Word>
    requires Usable(l) && v.reserved < n && PagesFor(l, v.reserved, n) <= |v.pages| && |words| == l.perPage * |v.pages|
  {
    seq(l.perPage * PagesFor(l, v.reserved, n), j requires j >= 0 =>
      if j < |words| && j / l.perPage < |v.pages| && PageKept(v, l, n, j / l.perPage) != 0 then words[j] else ALL_ONES)
  }

  lemma ClaimedIsTold(v: Survey, l: Layout, n: nat, words: seq<Word>, x: Lba)
    requires Usable(l) && v.reserved <= x < n && PagesFor(l, v.reserved, n) <= |v.pages|
              && |words| == l.perPage * |v.pages|
    ensures PageOf(l, v.reserved, x) < |v.pages|
    ensures Claims(WordsKept(v, l, n, words), v.reserved, x) <==>
              PageKept(v, l, n, PageOf(l, v.reserved, x)) != 0 && !FreeBit(words, x - v.reserved)
  {
    hide CeilDiv, PageKept, Bit;
    PageExists(l, v.reserved, n, x);
    MulMonotone(PagesFor(l, v.reserved, n), |v.pages|, l.perPage);
    var bit := x - v.reserved;
    var w := bit / 32;
    var kept := WordsKept(v, l, n, words);
    assert |kept| == l.perPage * PagesFor(l, v.reserved, n) <= |words|;
    assert w < |kept| && bit % 32 < 32 && bit < 32 * |kept|;
    assert w / l.perPage == PageOf(l, v.reserved, x);
    assert kept[w] == if PageKept(v, l, n, w / l.perPage) != 0 then words[w] else ALL_ONES;
    AllOnesFree(bit % 32);
  }

  lemma AllOnesFree(k: nat)
    requires k < 32
    ensures Bit(ALL_ONES, k)
  {
    ZeroBit(k);
    NotBit(0, k);
  }

  /** Read the bitmap as the shrink has left it, without believing it. */
  method ReadTolerantly(v: Survey, l: Layout, n: nat, cache: seq<Lba>, words: seq<Word>, held: set<Lba>,
          ghost before: seq<Word>)
    returns (was: OldBitmap)
    requires Surveyed(v, l, before, held) && v.reserved < n && RootAt(n, v.reserved) !in v.exts && |words| == |before|
    requires PagesFor(l, v.reserved, n) <= |v.pages| && ExtsFor(l, PagesFor(l, v.reserved, n)) <= |v.exts|
    requires |cache| == |v.cache| && forall i :: 0 <= i < |v.cache| ==> PlacedAt(v, n, v.cache, cache, i)
    ensures was == OldBitmap(PagesKept(v, l, n), ExtsKept(v, l, n), WordsKept(v, l, n, words))
  {
    var root, reached := RootAt(n, v.reserved), ReachedAfter(v, n, held, cache);
    var pages, exts := ReadPointers(v, l, n);
    var keptExts, claimed := KeepUsable(exts, [root], v.reserved, n, reached);
    ExtsAreKept(v, l, before, held, n, cache, exts, keptExts, claimed);
    var keptPages, all := KeepUsable(pages, claimed, v.reserved, n, reached);
    PagesAreKept(v, l, before, held, n, cache, pages, claimed, keptPages, all);
    was := OldBitmap(keptPages, keptExts, WordsKept(v, l, n, words));
  }

  lemma ExtsAreKept(v: Survey, l: Layout, words: seq<Word>, held: set<Lba>, n: nat, cache: seq<Lba>, was: seq<Lba>,
          kept: seq<Lba>, all: seq<Lba>)
    requires Surveyed(v, l, words, held) && v.reserved < n && RootAt(n, v.reserved) !in v.exts
    requires PagesFor(l, v.reserved, n) <= |v.pages| && ExtsFor(l, PagesFor(l, v.reserved, n)) <= |v.exts|
    requires |cache| == |v.cache| && forall i :: 0 <= i < |v.cache| ==> PlacedAt(v, n, v.cache, cache, i)
    requires was == ExtsKept(v, l, n) && |kept| == |was|
    requires forall k :: 0 <= k < |was| ==>
              kept[k] == 0 || (kept[k] == was[k] && v.reserved <= was[k] < n
              && was[k] !in ReachedAfter(v, n, held, cache))
    requires forall x :: x in all <==> x in [RootAt(n, v.reserved)] || (x != 0 && x in kept)
    requires forall x :: x in was && v.reserved <= x < n && x !in ReachedAfter(v, n, held, cache) ==> x in all
    requires forall x :: x in kept && x != 0 ==> x !in [RootAt(n, v.reserved)]
    ensures kept == ExtsKept(v, l, n)
    ensures forall x :: x in all <==> x == RootAt(n, v.reserved) || (x != 0 && x in ExtsKept(v, l, n))
  {
    KeptApart(v, l, words, held, n);
    KeptTail(PagesKept(v, l, n), ExtsKept(v, l, n));
    forall k | 0 <= k < |was|
      ensures kept[k] == was[k]
    {
      KeptIs(was, [RootAt(n, v.reserved)], v.reserved, n, ReachedAfter(v, n, held, cache), kept, all, k);
      if was[k] != 0 {
        assert was[k] == v.exts[k];
        CacheApart(v, l, words, held, n, cache, was[k]);
        assert was[k] in PagesKept(v, l, n) + ExtsKept(v, l, n);
      }
    }
  }

  lemma KeptTail(a: seq<Lba>, b: seq<Lba>)
    requires Distinct(a + b)
    ensures Distinct(b) && Distinct(a) && forall x :: x in a && x != 0 ==> x !in b
  {
    assert forall i :: 0 <= i < |a| ==> (a + b)[i] == a[i];
    assert forall i :: 0 <= i < |b| ==> (a + b)[|a| + i] == b[i];
  }

  lemma PagesAreKept(v: Survey, l: Layout, words: seq<Word>, held: set<Lba>, n: nat, cache: seq<Lba>, was: seq<Lba>,
          claimed: seq<Lba>, kept: seq<Lba>, all: seq<Lba>)
    requires Surveyed(v, l, words, held) && v.reserved < n
    requires PagesFor(l, v.reserved, n) <= |v.pages| && ExtsFor(l, PagesFor(l, v.reserved, n)) <= |v.exts|
    requires |cache| == |v.cache| && forall i :: 0 <= i < |v.cache| ==> PlacedAt(v, n, v.cache, cache, i)
    requires |was| == |kept| == PagesFor(l, v.reserved, n)
    requires forall i :: 0 <= i < |was| ==> was[i] == if Listed(v, l, n, i) then v.pages[i] else 0
    requires forall x :: x in claimed <==> x == RootAt(n, v.reserved) || (x != 0 && x in ExtsKept(v, l, n))
    requires forall k :: 0 <= k < |was| ==>
              kept[k] == 0 || (kept[k] == was[k] && v.reserved <= was[k] < n
              && was[k] !in ReachedAfter(v, n, held, cache))
    requires forall x :: x in all <==> x in claimed || (x != 0 && x in kept)
    requires forall x :: x in was && v.reserved <= x < n && x !in ReachedAfter(v, n, held, cache) ==> x in all
    requires forall x :: x in kept && x != 0 ==> x !in claimed
    ensures kept == PagesKept(v, l, n)
  {
    var every := Parts(v);
    assert forall i :: 0 <= i < |v.pages| ==> every[1 + i] == v.pages[i];
    assert forall i :: 0 <= i < |v.exts| ==> every[1 + |v.pages| + i] == v.exts[i];
    assert Distinct(was);
    forall i | 0 <= i < |was|
      ensures kept[i] == PageKept(v, l, n, i)
    {
      KeptIs(was, claimed, v.reserved, n, ReachedAfter(v, n, held, cache), kept, all, i);
      if was[i] != 0 {
        CacheApart(v, l, words, held, n, cache, was[i]);
        assert Movable(v, was[i]);
        assert was[i] !in ExtsKept(v, l, n);
      }
    }
  }

  // ---- The shrink ------------------------------------------------------------------------------------

  /** A smaller volume needs no more of a bitmap. */
  lemma FewerPages(v: Survey, l: Layout, words: seq<Word>, held: set<Lba>, n: nat)
    requires Surveyed(v, l, words, held) && v.reserved < n <= v.count
    ensures PagesFor(l, v.reserved, n) <= |v.pages| && ExtsFor(l, PagesFor(l, v.reserved, n)) <= |v.exts|
  {
    CeilDivGrows(n - v.reserved, v.count - v.reserved, 32 * l.perPage);
    if PagesFor(l, v.reserved, n) > ROOT_PAGES {
      CeilDivGrows(PagesFor(l, v.reserved, n) - ROOT_PAGES, |v.pages| - ROOT_PAGES, l.perExt);
    }
  }

  lemma Covers(l: Layout, reserved: nat, n: nat)
    requires Usable(l) && reserved <= n
    ensures n - reserved <= 32 * (l.perPage * PagesFor(l, reserved, n))
  {
    var pages := PagesFor(l, reserved, n);
    assert pages * (32 * l.perPage) == 32 * (l.perPage * pages);
  }

  /** Every block of the new size free, before anything is marked. */
  method Blank(v: Survey, l: Layout, n: nat, pages: seq<Lba>) returns (alloc: Allocator)
    requires Usable(l) && 0 < v.reserved < n && |pages| == PagesFor(l, v.reserved, n)
    ensures fresh(alloc) && alloc.Valid() && alloc.reserved == v.reserved && alloc.blockCount == n
    ensures alloc.Covered() == n - v.reserved && forall x: Lba :: alloc.IsCovered(x) <==> v.reserved <= x < n
    ensures forall x: Lba :: alloc.IsCovered(x) ==> x in alloc.Free()
  {
    hide Bit, PagesFor;
    var ones: seq<Word> := seq(l.perPage * |pages|, _ => ALL_ONES);
    alloc := new Allocator.FromParts(v.reserved, n, l.perPage, pages, ones, true, |pages|);
    Covers(l, v.reserved, n);
    forall b | 0 <= b < 32 * |ones|
      ensures FreeBit(ones, b)
    {
      AllOnesFree(b % 32);
    }
  }

  /** What is free once the old bitmap's claims and the walk's are marked is what is vacant. */
  lemma FreeIsVacant(v: Survey, l: Layout, words: seq<Word>, held: set<Lba>, n: nat, cache: seq<Lba>, now: seq<Word>,
          x: Lba)
    requires Surveyed(v, l, words, held) && v.reserved <= x < n <= v.count && |now| == |words|
              && x != RootAt(n, v.reserved)
    requires PagesFor(l, v.reserved, n) <= |v.pages| && ExtsFor(l, PagesFor(l, v.reserved, n)) <= |v.exts|
    requires |cache| == |v.cache| && forall i :: 0 <= i < |v.cache| ==> PlacedAt(v, n, v.cache, cache, i)
    requires FreedAt(v, l, n, [RootAt(n, v.reserved)] + cache, words, now, x)
    ensures !Claims(WordsKept(v, l, n, now), v.reserved, x) <==> Untold(v, l, n, x)
  {
    ClaimedIsTold(v, l, n, now, x);
    var p := PageOf(l, v.reserved, x);
    assert v.bits[x - v.reserved] == Some(!FreeBit(words, x - v.reserved));
    if PageKept(v, l, n, p) != 0 { CacheApart(v, l, words, held, n, cache, v.pages[p]); }
    hide FreeBit, WordsKept, Claims, Obsolete, Surveyed;
  }

  lemma SurveyedFacts(v: Survey, l: Layout, words: seq<Word>, held: set<Lba>)
    requires Surveyed(v, l, words, held)
    ensures Usable(l) && 0 < v.reserved
  {}

  /** Rebuild the bitmap for the new size. There is a block for each part of it that has lost
      its own exactly when it can be refurnished; free are then the vacant blocks it has not
      taken. */
  method Rebuild(v: Survey, l: Layout, n: nat, cache: seq<Lba>, words: seq<Word>, held: set<Lba>)
    returns (r: Result<(seq<Lba>, seq<Lba>), AllocError>, alloc: Allocator)
    requires Surveyed(v, l, words, held) && v.reserved < n <= v.count && RootAt(n, v.reserved) !in v.exts
    requires PagesFor(l, v.reserved, n) <= |v.pages| && ExtsFor(l, PagesFor(l, v.reserved, n)) <= |v.exts|
    requires |cache| == |v.cache| && forall i :: 0 <= i < |v.cache| ==> PlacedAt(v, n, v.cache, cache, i)
    ensures fresh(alloc) && alloc.Valid() && alloc.reserved == v.reserved && alloc.blockCount == n
              && alloc.Covered() == n - v.reserved
    ensures r.Ok? <==> Refurnishable(v, l, n, held, cache)
    ensures r.Ok? ==> Furnished(v, l, n, r.value.0, r.value.1, Vacant(v, l, n, held, cache), alloc.Free())
  {
    hide Surveyed, FreeBit, FreeBits, Allocator.Free, Enough, WordsKept, Obsolete, Patchable, Claims, Distinct,
      NoRepeats, InTime,
      Vacant, Untold, PlacedAt, PagesKept, ExtsKept, Reports, Unclaimed, ReachedAfter, SetOf, Furnished,
      PagesFor, ExtsFor, Freed, Left, WordsKept;
    SurveyedFacts(v, l, words, held);
    var root := RootAt(n, v.reserved);
    var now := FreeObsolete(v, l, n, [root] + cache, words, held);
    var was := ReadTolerantly(v, l, n, cache, now, held, words);
    ghost var free;
    r, alloc, free := Refit(v, l, n, cache, was, words, held);
    VacantIs(v, l, words, held, n, cache, now, free);
  }

  /** The same, from the bitmap as it has been read. */
  method Refit(v: Survey, l: Layout, n: nat, cache: seq<Lba>, was: OldBitmap, ghost words: seq<Word>, held: set<Lba>)
    returns (r: Result<(seq<Lba>, seq<Lba>), AllocError>, alloc: Allocator, ghost free: set<Lba>)
    requires Surveyed(v, l, words, held) && v.reserved < n <= v.count
    requires PagesFor(l, v.reserved, n) <= |v.pages| && ExtsFor(l, PagesFor(l, v.reserved, n)) <= |v.exts|
    requires was.pages == PagesKept(v, l, n) && was.exts == ExtsKept(v, l, n)
    ensures fresh(alloc) && alloc.Valid() && alloc.reserved == v.reserved && alloc.blockCount == n
              && alloc.Covered() == n - v.reserved
    ensures Left(v, n, was.words, ReachedAfter(v, n, held, cache), free)
    ensures r.Ok? <==> Enough(free, PagesKept(v, l, n) + ExtsKept(v, l, n), RootAt(n, v.reserved) + 1)
    ensures r.Ok? ==> Furnished(v, l, n, r.value.0, r.value.1, free, alloc.Free())
  {
    hide Surveyed, FreeBit, FreeBits, Allocator.Free, Enough, Claims, Distinct, NoRepeats, InTime, PagesKept, ExtsKept,
      Unclaimed, ReachedAfter,
      SetOf, Furnished, PagesFor, ExtsFor, Left;
    SurveyedFacts(v, l, words, held);
    KeptApart(v, l, words, held, n);
    alloc := Blank(v, l, n, was.pages);
    var reached := ReachedAfter(v, n, held, cache);
    r, free := RebuildBitmap(alloc, was, reached, RootAt(n, v.reserved));
    FreeOnceMarked(alloc, v, n, was, reached, free);
    if r.Ok? { FurnishedNow(v, l, n, r.value.0, r.value.1, free, alloc.Free()); }
  }

  lemma FurnishedNow(v: Survey, l: Layout, n: nat, pages: seq<Lba>, exts: seq<Lba>, vacant: set<Lba>, free: set<Lba>)
    requires Usable(l) && v.reserved < n
    requires PagesFor(l, v.reserved, n) <= |v.pages| && ExtsFor(l, PagesFor(l, v.reserved, n)) <= |v.exts|
    requires |pages| == |PagesKept(v, l, n)| && |exts| == |ExtsKept(v, l, n)|
    requires forall i :: 0 <= i < |pages| ==>
              if PagesKept(v, l, n)[i] != 0 then pages[i] == PagesKept(v, l, n)[i] else pages[i] in vacant
    requires forall i :: 0 <= i < |exts| ==>
              if ExtsKept(v, l, n)[i] != 0 then exts[i] == ExtsKept(v, l, n)[i] else exts[i] in vacant
    requires forall x: Lba :: x in free <==> x in vacant && x !in pages && x !in exts
    requires NoRepeats(pages + exts) <==>
              InTime(vacant, PagesKept(v, l, n) + ExtsKept(v, l, n), RootAt(n, v.reserved) + 1)
    ensures Furnished(v, l, n, pages, exts, vacant, free)
  {
    hide PagesKept, ExtsKept, NoRepeats, InTime, PagesFor, ExtsFor;
  }

  lemma FreeOnceMarked(alloc: Allocator, v: Survey, n: nat, was: OldBitmap, reached: set<Lba>, free: set<Lba>)
    requires Unclaimed(alloc, was, reached, free) && alloc.reserved == v.reserved < n == alloc.blockCount
              && alloc.Covered() == n - v.reserved
    ensures Left(v, n, was.words, reached, free)
  {
    hide Claims;
  }


  lemma VacantIs(v: Survey, l: Layout, words: seq<Word>, held: set<Lba>, n: nat, cache: seq<Lba>, now: seq<Word>,
          free: set<Lba>)
    requires Surveyed(v, l, words, held) && v.reserved < n <= v.count && |now| == |words|
    requires PagesFor(l, v.reserved, n) <= |v.pages| && ExtsFor(l, PagesFor(l, v.reserved, n)) <= |v.exts|
    requires |cache| == |v.cache| && forall i :: 0 <= i < |v.cache| ==> PlacedAt(v, n, v.cache, cache, i)
    requires Freed(v, l, n, [RootAt(n, v.reserved)] + cache, words, now)
    requires Left(v, n, WordsKept(v, l, n, now), ReachedAfter(v, n, held, cache), free)
    ensures free == Vacant(v, l, n, held, cache)
  {
    hide Surveyed, FreedAt, WordsKept, Claims, PagesFor, ExtsFor, PlacedAt, Untold;
    SurveyedFacts(v, l, words, held);
    forall x: Lba | v.reserved <= x < n
      ensures x in free <==> x in Vacant(v, l, n, held, cache)
    {
      if x != RootAt(n, v.reserved) {
        assert FreedAt(v, l, n, [RootAt(n, v.reserved)] + cache, words, now, x);
        FreeIsVacant(v, l, words, held, n, cache, now, x);
      }
    }
  }

  /** `free` are the blocks of the new size that neither the words nor the walk claim. */
  ghost predicate Left(v: Survey, n: nat, words: seq<Word>, reached: set<Lba>, free: set<Lba>) {
    forall x: Lba :: x in free <==> v.reserved <= x < n && !Claims(words, v.reserved, x) && x !in reached
  }

  /** The new bitmap: a page or extension block that was kept is where it was, any other is
      where it was vacant, and the rest of the vacant blocks are free. */
  ghost predicate Furnished(v: Survey, l: Layout, n: nat, pages: seq<Lba>, exts: seq<Lba>, vacant: set<Lba>,
          free: set<Lba>)
    requires Usable(l) && v.reserved < n
    requires PagesFor(l, v.reserved, n) <= |v.pages| && ExtsFor(l, PagesFor(l, v.reserved, n)) <= |v.exts|
  {
    && |pages| == PagesFor(l, v.reserved, n) && |exts| == ExtsFor(l, |pages|)
    && (forall i :: 0 <= i < |pages| ==>
        if PagesKept(v, l, n)[i] != 0 then pages[i] == PagesKept(v, l, n)[i] else pages[i] in vacant)
    && (forall i :: 0 <= i < |exts| ==>
        if ExtsKept(v, l, n)[i] != 0 then exts[i] == ExtsKept(v, l, n)[i] else exts[i] in vacant)
    && (forall x: Lba :: x in free <==> x in vacant && x !in pages && x !in exts)
    && (NoRepeats(pages + exts) <==> InTime(vacant, PagesKept(v, l, n) + ExtsKept(v, l, n), RootAt(n, v.reserved) + 1))
  }

  /** What a shrink leaves: where the root and its cache are, the bitmap's pages and extension
      blocks, and its longwords. */
  datatype Shrunk = Shrunk(move: Move, pages: seq<Lba>, exts: seq<Lba>, words: seq<Word>)

  /** The checks pass, and everything of the bitmap that loses its place finds another. */
  ghost predicate Shrinkable(v: Survey, l: Layout, n: nat, held: set<Lba>)
    requires Usable(l)
  {
    && Accepts(v, n, None) && PagesFor(l, v.reserved, n) <= |v.pages|
        && ExtsFor(l, PagesFor(l, v.reserved, n)) <= |v.exts|
    && exists cache :: Moved(v, n, cache) && Refurnishable(v, l, n, held, cache)
  }

  /** The places of the root's cache for the size `n`. */
  ghost predicate Moved(v: Survey, n: nat, cache: seq<Lba>)
    requires v.reserved < n
  {
    |cache| == |v.cache| && forall i :: 0 <= i < |v.cache| ==> PlacedAt(v, n, v.cache, cache, i)
  }

  lemma MovedIsDecided(v: Survey, n: nat, a: seq<Lba>, b: seq<Lba>)
    requires v.reserved < n && Moved(v, n, a) && Moved(v, n, b)
    ensures a == b
  {
    hide PlacedAt;
    PlacesAreDecided(v, n, v.cache, a, b, |v.cache|);
  }

  lemma SurveyedCache(v: Survey, l: Layout, words: seq<Word>, held: set<Lba>)
    requires Surveyed(v, l, words, held)
    ensures CacheHeld(v)
  {
    var all := Parts(v);
    assert forall i :: 0 <= i < |v.cache| ==> all[1 + |v.pages| + |v.exts| + i] == v.cache[i];
    assert forall x :: x in v.cache ==> Movable(v, x);
  }

  /** Shrink a volume in order to `n` blocks. Refused before the first write exactly when a
      check fails, and after the last but the bitmap's exactly when there is no block for some
      part of it; otherwise the new bitmap calls free the vacant blocks it has not taken. */
  method Shrink(v: Survey, l: Layout, n: nat, words: seq<Word>, held: set<Lba>) returns (r: Result<Shrunk, ResizeError>)
    requires Surveyed(v, l, words, held) && n < v.count && (v.reserved < n ==> RootAt(n, v.reserved) !in v.exts)
    ensures Usable(l) && (r.Ok? <==> Shrinkable(v, l, n, held))
    ensures r.Err? ==> (r.error.Alloc? <==> Accepts(v, n, None))
    ensures r.Ok? ==> Became(v, l, n, held, r.value)
  {
    hide Surveyed, Clears, PagesFor, ExtsFor, Refurnishable, PlacedAt, CacheHeld, Furnished, FreeBits, FreeBit,
      DisplacedIn, FreeBelow, Vacant,
      FreeBlocks, Allocator.Free;
    SurveyedFacts(v, l, words, held);
    SurveyedCache(v, l, words, held);
    var plan := PlanResize(v, n, None);
    match plan {
      case Err(e) => return Err(e);
      case Ok(move) =>
        FewerPages(v, l, words, held, n);
        var furnished, alloc := Rebuild(v, l, n, move.cache, words, held);
        OnlyThisMove(v, l, n, held, move.cache);
        match furnished {
          case Err(e) => return Err(ResizeError.Alloc(e));
          case Ok(f) =>
            r := Ok(Shrunk(move, f.0, f.1, alloc.words));
            FreeInWords(alloc, v, n);
        }
    }
  }

  lemma OnlyThisMove(v: Survey, l: Layout, n: nat, held: set<Lba>, cache: seq<Lba>)
    requires Usable(l) && v.reserved < n && PagesFor(l, v.reserved, n) <= |v.pages|
              && ExtsFor(l, PagesFor(l, v.reserved, n)) <= |v.exts|
    requires Moved(v, n, cache)
    ensures (exists c :: Moved(v, n, c) && Refurnishable(v, l, n, held, c)) <==> Refurnishable(v, l, n, held, cache)
  {
    hide Moved, Refurnishable, PagesFor, ExtsFor;
    if c :| Moved(v, n, c) && Refurnishable(v, l, n, held, c) {
      MovedIsDecided(v, n, c, cache);
    }
  }

  lemma FreeInWords(alloc: Allocator, v: Survey, n: nat)
    requires alloc.reserved == v.reserved < n == alloc.blockCount && alloc.Covered() == n - v.reserved
    ensures FreeBlocks(alloc.words, v.reserved, n) == alloc.Free()
  {}

  /** The blocks `words` call free. */
  ghost function FreeBlocks(words: seq<Word>, reserved: nat, n: nat): set<Lba> {
    set x: Lba | reserved <= x < n && FreeIn(words, reserved, x)
  }

  /** What the volume has become: the root in the middle, its cache and the bitmap in their
      places, and the blocks the new bitmap calls free. */
  ghost predicate Became(v: Survey, l: Layout, n: nat, held: set<Lba>, s: Shrunk)
    requires Usable(l)
  {
    && v.reserved < n && PagesFor(l, v.reserved, n) <= |v.pages| && ExtsFor(l, PagesFor(l, v.reserved, n)) <= |v.exts|
    && s.move.root == RootAt(n, v.reserved) && Moved(v, n, s.move.cache)
    && Furnished(v, l, n, s.pages, s.exts, Vacant(v, l, n, held, s.move.cache), FreeBlocks(s.words, v.reserved, n))
  }

  /** Where nothing loses its place, the checks are all there is. */
  lemma NothingLost(v: Survey, l: Layout, n: nat, held: set<Lba>, cache: seq<Lba>)
    requires Usable(l) && 0 < v.reserved < n
    requires PagesFor(l, v.reserved, n) <= |v.pages| && ExtsFor(l, PagesFor(l, v.reserved, n)) <= |v.exts|
    requires 0 !in PagesKept(v, l, n) && 0 !in ExtsKept(v, l, n)
    ensures Refurnishable(v, l, n, held, cache)
  {
    hide PagesFor, ExtsFor, PagesKept, ExtsKept, Vacant, Enough, Missing;
    var free, places := Vacant(v, l, n, held, cache), PagesKept(v, l, n) + ExtsKept(v, l, n);
    forall i | 0 <= i < |places|
      ensures places[i] != 0
    {
      assert places[i] in places;
    }
    NoneMissing(places, |places|);
    EarlyOfAll(free, places, RootAt(n, v.reserved) + 1);
  }

  lemma {:induction false} NoneMissing(places: seq<Lba>, n: nat)
    requires n <= |places| && forall i :: 0 <= i < n ==> places[i] != 0
    ensures Missing(places, n) == 0
  {
    if n > 0 { NoneMissing(places, n - 1); }
  }

  lemma EarlyOfAll(free: set<Lba>, places: seq<Lba>, hint: Lba)
    requires forall i :: 0 <= i < |places| ==> places[i] != 0
    ensures Missing(places, |places|) == 0 ==> Enough(free, places, hint)
  {
    var early := set x | x in free && x in places;
    forall j | 0 <= j < |places|
      ensures Missing(places, j) == 0
    {
      NoneMissing(places, j);
    }
    assert Early(free, places, hint, early);
  }

  lemma VacantIsBehind(v: Survey, l: Layout, n: nat, held: set<Lba>, cache: seq<Lba>)
    requires Usable(l) && v.reserved < n && PagesFor(l, v.reserved, n) <= |v.pages|
    ensures forall x :: x in Vacant(v, l, n, held, cache) ==> v.reserved <= x
  {
    hide PagesFor, Untold;
  }

  /** Where one page is the whole bitmap, it is enough that it stays or that one block is vacant. */
  lemma OnePage(v: Survey, l: Layout, n: nat, held: set<Lba>, cache: seq<Lba>)
    requires Usable(l) && 0 < v.reserved < n && PagesFor(l, v.reserved, n) == 1 <= |v.pages| && ExtsFor(l, 1) == 0
    ensures Refurnishable(v, l, n, held, cache) <==> PagesKept(v, l, n) != [0] || Vacant(v, l, n, held, cache) != {}
  {
    hide PagesFor, ExtsFor, PageKept, Vacant, Early, Enough;
    VacantIsBehind(v, l, n, held, cache);
    var free, places := Vacant(v, l, n, held, cache), PagesKept(v, l, n);
    assert places + ExtsKept(v, l, n) == places;
    if places[0] != 0 {
      NoneMissing(places, 1);
      EarlyOfAll(free, places, RootAt(n, v.reserved) + 1);
    } else {
      assert places == [0] && Missing(places, 0) == 0 && Missing(places, 1) == 1;
      EnoughOnceMarked(free, places, RootAt(n, v.reserved) + 1);
      if x :| x in free { SubsetSize({x}, free); }
    }
  }

  /** A freshly formatted volume of nine blocks, its root at 5 and its page at 6. */
  function Fresh(): Survey {
    Survey(2, 9, [Some(false), Some(false), Some(false), Some(true), Some(true), Some(false), Some(false)], 5, [6], [],
        [])
  }

  lemma FreshIsSurveyed(words: seq<Word>)
    requires words == [103] + seq(126, _ => 0)
    ensures Surveyed(Fresh(), Layout(127, 127), words, {})
  {
    FreshBits(words);
    hide FreeBit;
    assert Parts(Fresh()) == [5, 6];
    assert PagesFor(Layout(127, 127), 2, 9) == 1;
  }

  lemma LeastOfFresh()
    ensures Clears(Fresh(), 3) && forall n :: Clears(Fresh(), n) ==> 3 <= n
    ensures Accepts(Fresh(), 3, None)
  {
    assert DisplacedIn(Fresh(), 3, []) == 0;
  }

  lemma NoPageForFresh(cache: seq<Lba>)
    requires Moved(Fresh(), 3, cache)
    ensures PagesFor(Layout(127, 127), 2, 3) == 1 && ExtsFor(Layout(127, 127), 1) == 0
              && !Refurnishable(Fresh(), Layout(127, 127), 3, {}, cache)
  {
    hide Refurnishable, PlacedAt, Untold;
    var v, l := Fresh(), Layout(127, 127);
    assert PagesFor(l, 2, 3) == 1;
    assert PageKept(v, l, 3, 0) == 0;
    assert PagesKept(v, l, 3) == [0];
    assert Vacant(v, l, 3, {}, cache) == {};
    OnePage(v, l, 3, {}, cache);
  }

  /** Three is its least size and passes the checks, but the page is past the cut and the one
      block below it is the root's. One block less, and there is no room for a root. */
  lemma NowhereForThePage() returns (v: Survey, l: Layout, words: seq<Word>)
    ensures Surveyed(v, l, words, {}) && v.count == 9 && v.root == RootAt(v.count, v.reserved) && v.cache == []
    ensures Clears(v, 3) && (forall n :: Clears(v, n) ==> 3 <= n) && Accepts(v, 3, None) && !Shrinkable(v, l, 3, {})
    ensures v.reserved == 2
  {
    hide Clears, Surveyed, Refurnishable, PagesFor, ExtsFor, Accepts, Moved;
    v, l, words := Fresh(), Layout(127, 127), [103] + seq(126, _ => 0);
    FreshIsSurveyed(words);
    LeastOfFresh();
    forall cache | Moved(v, 3, cache)
      ensures PagesFor(l, 2, 3) <= |v.pages| && ExtsFor(l, PagesFor(l, 2, 3)) <= |v.exts|
                && !Refurnishable(v, l, 3, {}, cache)
    {
      NoPageForFresh(cache);
    }
  }

  lemma FreshBits(words: seq<Word>)
    requires |words| == 127 && words[0] == 103
    ensures FreeBit(words, 0) && FreeBit(words, 1) && FreeBit(words, 2) && !FreeBit(words, 3) && !FreeBit(words, 4)
              && FreeBit(words, 5)
              && FreeBit(words, 6)
  {
    assert Bit(25, 1) == Bit(12, 0) && Bit(25, 2) == Bit(12, 1) == Bit(6, 0);
    assert Bit(103, 2) == Bit(51, 1) == Bit(25, 0) && Bit(103, 3) == Bit(51, 2) == Bit(25, 1)
        && Bit(103, 4) == Bit(51, 3) == Bit(25, 2);
    assert Bit(103, 5) == Bit(51, 4) == Bit(25, 3) == Bit(12, 2) == Bit(6, 1) == Bit(3, 0);
    assert Bit(103, 6) == Bit(51, 5) == Bit(25, 4) == Bit(12, 3) == Bit(6, 2) == Bit(3, 1) == Bit(1, 0);
  }
}
