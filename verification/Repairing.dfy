/**
 Rebuilding the bitmap: everything the old one called allocated and everything a walk comes
 to is allocated in the new one, the pages that can be kept are kept, and for the others
 blocks are taken from what is left.
 */
module Repairing {
  import opened Words
  import opened Disk
  import opened Directories
  import opened Allocation

  /** The old bitmap, read without believing it: where its pages and extension blocks are,
      0 for one to replace, and its longwords, all ones where a page could not be read. */
  datatype OldBitmap = OldBitmap(pages: seq<Lba>, exts: seq<Lba>, words: seq<Word>)

  /** The pointers that can be used: into the volume, to blocks no other pointer has claimed
      and no walk comes to. */
  method KeepUsable(was: seq<Lba>, claimed: seq<Lba>, reserved: nat, count: nat, reached: set<Lba>)
          returns (kept: seq<Lba>, all: seq<Lba>)
    requires reserved > 0 && NoRepeats(claimed)
    ensures |kept| == |was| && NoRepeats(all) && claimed <= all
    ensures forall i :: 0 <= i < |was| ==>
              kept[i] == 0 || (kept[i] == was[i] && reserved <= was[i] < count && was[i] !in reached)
    ensures forall x :: x in all <==> x in claimed || (x != 0 && x in kept)
    ensures forall x :: x in was && reserved <= x < count && x !in reached ==> x in all
    ensures Distinct(kept) && forall x :: x in kept && x != 0 ==> x !in claimed
  {
    kept, all := [], claimed;
    var i := 0;
    while i < |was|
      invariant 0 <= i <= |was| && |kept| == i && NoRepeats(all) && claimed <= all
      invariant forall k :: 0 <= k < i ==>
                kept[k] == 0 || (kept[k] == was[k] && reserved <= was[k] < count && was[k] !in reached)
      invariant forall x :: x in all <==> x in claimed || (x != 0 && x in kept)
      invariant forall k :: 0 <= k < i && reserved <= was[k] < count && was[k] !in reached ==> was[k] in all
      invariant Distinct(kept) && forall x :: x in kept && x != 0 ==> x !in claimed
    {
      if was[i] < reserved || was[i] >= count || was[i] in all || was[i] in reached {
        kept := kept + [0];
      } else {
        kept, all := kept + [was[i]], all + [was[i]];
      }
      i := i + 1;
    }
  }

  /** No block but 0 is there twice. */
  ghost predicate Distinct(places: seq<Lba>) {
    forall i, j :: 0 <= i < j < |places| && places[i] != 0 ==> places[i] != places[j]
  }

  // ---- What is in use ------------------------------------------------------------------------------

  /** The old bitmap says block `x` is allocated. */
  predicate Claims(words: seq<Word>, reserved: nat, x: Lba) {
    reserved <= x < reserved + 32 * |words| && !FreeBit(words, x - reserved)
  }

  /** Mark what the old bitmap called allocated; its padding is nobody's. */
  method MarkClaims(alloc: Allocator, words: seq<Word>)
    requires alloc.Valid()
    modifies alloc`words, alloc`free, alloc`dirty
    ensures alloc.Valid() && alloc.Covered() == old(alloc.Covered())
    ensures forall x: Lba :: x in alloc.Free() <==> x in old(alloc.Free()) && !Claims(words, alloc.reserved, x)
  {
    hide Bit;
    var i := 0;
    while i < |words|
      invariant 0 <= i <= |words| && alloc.Valid() && alloc.Covered() == old(alloc.Covered())
      invariant forall x: Lba :: x in alloc.Free() <==> x in old(alloc.Free()) && !Claims(words[..i], alloc.reserved, x)
    {
      ghost var free := alloc.Free();
      if words[i] != ALL_ONES {
        MarkWord(alloc, words[i], alloc.reserved + 32 * i);
      }
      OnesClaimNothing(alloc.reserved + 32 * i);
      OneWordMore(words, i, alloc.reserved);
      i := i + 1;
    }
    assert words[..i] == words;
  }

  /** The claims of one longword. */
  method MarkWord(alloc: Allocator, w: Word, base: Lba)
    requires alloc.Valid()
    modifies alloc`words, alloc`free, alloc`dirty
    ensures alloc.Valid() && alloc.Covered() == old(alloc.Covered())
    ensures forall x: Lba :: x in alloc.Free() <==> x in old(alloc.Free()) && !ClaimedIn(w, base, x)
  {
    hide Bit;
    var b := 0;
    while b < 32
      invariant 0 <= b <= 32 && alloc.Valid() && alloc.Covered() == old(alloc.Covered())
      invariant forall x: Lba :: x in alloc.Free() <==>
                x in old(alloc.Free()) && !(x < base + b && ClaimedIn(w, base, x))
    {
      if !Bit(w, b) {
        var marked := alloc.MarkInUse(base + b);
      }
      b := b + 1;
    }
  }

  predicate ClaimedIn(w: Word, base: Lba, x: Lba) {
    base <= x < base + 32 && !Bit(w, x - base)
  }

  lemma OneWordMore(words: seq<Word>, i: nat, reserved: nat)
    requires i < |words|
    ensures forall x: Lba :: Claims(words[..i + 1], reserved, x) <==>
              Claims(words[..i], reserved, x) || ClaimedIn(words[i], reserved + 32 * i, x)
  {
    hide Bit;
    forall x: Lba
      ensures Claims(words[..i + 1], reserved, x) <==>
                Claims(words[..i], reserved, x) || ClaimedIn(words[i], reserved + 32 * i, x)
    {
      if reserved <= x < reserved + 32 * i {
        assert (x - reserved) / 32 < i;
        assert words[..i + 1][(x - reserved) / 32] == words[..i][(x - reserved) / 32];
      } else if reserved + 32 * i <= x < reserved + 32 * (i + 1) {
        assert (x - reserved) / 32 == i && (x - reserved) % 32 == x - (reserved + 32 * i);
      }
    }
  }

  lemma OnesClaimNothing(base: Lba)
    ensures forall x: Lba :: !ClaimedIn(ALL_ONES, base, x)
  {
    forall k: nat | k < 32
      ensures Bit(ALL_ONES, k)
    {
      ZeroBit(k);
      NotBit(0, k);
    }
  }

  /** Mark what a walk came to; `added` counts the blocks that had not been. */
  method MarkReached(alloc: Allocator, count: nat, reached: set<Lba>) returns (r: Result<nat, AllocError>)
    requires alloc.Valid() && count <= alloc.reserved + alloc.Covered()
    modifies alloc`words, alloc`free, alloc`dirty
    ensures alloc.Valid() && alloc.Covered() == old(alloc.Covered()) && r.Ok?
    ensures forall x: Lba :: x in alloc.Free() <==> x in old(alloc.Free()) && !(x in reached && x < count)
    ensures r.value == |old(alloc.Free())| - |alloc.Free()|
  {
    hide FreeBit, FreeBits, Allocator.Free;
    FreeAbove(alloc);
    var added := 0;
    var x := alloc.reserved;
    while x < count
      invariant alloc.reserved <= x && alloc.Valid() && alloc.Covered() == old(alloc.Covered())
      invariant forall y: Lba :: y in alloc.Free() <==> y in old(alloc.Free()) && !(y in reached && y < x && y < count)
      invariant added + |alloc.Free()| == |old(alloc.Free())|
    {
      if x in reached {
        ghost var free := alloc.Free();
        var marked := alloc.MarkInUse(x);
        match marked {
          case Err(e) => return Err(e);
          case Ok(isNew) =>
            if isNew {
              OneGone(free, alloc.Free(), x);
              added := added + 1;
            } else {
              assert free == alloc.Free();
            }
        }
      }
      x := x + 1;
    }
    r := Ok(added);
  }

  lemma FreeAbove(alloc: Allocator)
    ensures forall x: Lba :: x in alloc.Free() ==> alloc.reserved <= x
  {}

  lemma OneGone(was: set<Lba>, now: set<Lba>, x: Lba)
    requires x in was && now == was - {x}
    ensures |was| == |now| + 1
  {
    assert was == now + {x};
  }

  // ---- New places for what cannot be kept ------------------------------------------------------------

  /** A search from `hint` upward, and then from the front, comes to `x` before it comes to `y`. */
  predicate Sooner(hint: Lba, x: Lba, y: Lba) {
    if y >= hint then hint <= x < y else x >= hint || x < y
  }

  /** How many of the first `n` places are still to be found. */
  function Missing(places: seq<Lba>, n: nat): nat
    requires n <= |places|
  {
    if n == 0 then 0 else Missing(places, n - 1) + if places[n - 1] == 0 then 1 else 0
  }

  /** What a search comes to before `k`, of the free blocks that are no kept place. */
  ghost function Nearer(free: set<Lba>, places: seq<Lba>, hint: Lba, k: Lba): set<Lba> {
    set x: Lba | x in free && x !in places && Sooner(hint, x, k)
  }

  /** Every kept place that is not marked yet is marked before a search comes to it: there
      are enough other blocks nearer for the places to be found before its turn. */
  ghost predicate InTime(free: set<Lba>, places: seq<Lba>, hint: Lba) {
    forall j :: 0 <= j < |places| && places[j] != 0 && places[j] in free ==>
        Missing(places, j) <= |Nearer(free, places, hint, places[j])|
  }

  /** What a search comes to before `k`, of all the free blocks. */
  ghost function Before(free: set<Lba>, hint: Lba, k: Lba): set<Lba> {
    set x: Lba | x in free && Sooner(hint, x, k)
  }

  /** `early` are the kept places that are free at first and are marked before a search comes
      to them: as many blocks are nearer, and not themselves marked early, as places are to be
      found before its turn. */
  ghost predicate Early(free: set<Lba>, places: seq<Lba>, hint: Lba, early: set<Lba>) {
    && (forall x :: x in early ==> x in free && x in places)
    && forall j :: 0 <= j < |places| && places[j] != 0 && places[j] in free ==>
         (places[j] in early <==> Missing(places, j) <= |Before(free, hint, places[j]) - early|)
  }

  lemma BeforeGrows(free: set<Lba>, hint: Lba, x: Lba, k: Lba)
    requires x in free && Sooner(hint, x, k)
    ensures |Before(free, hint, x)| < |Before(free, hint, k)|
  {
    var a, b := Before(free, hint, x), Before(free, hint, k);
    assert a <= b - {x};
    SubsetSize(a, b - {x});
    assert b == (b - {x}) + {x};
  }

  /** One set is early. */
  lemma EarlyIsUnique(free: set<Lba>, places: seq<Lba>, hint: Lba, a: set<Lba>, b: set<Lba>)
    requires Early(free, places, hint, a) && Early(free, places, hint, b) && 0 !in free
    ensures a == b
  {
    forall k
      ensures k in a <==> k in b
    {
      SameEarly(free, places, hint, a, b, k);
    }
  }

  lemma {:induction false} SameEarly(free: set<Lba>, places: seq<Lba>, hint: Lba, a: set<Lba>, b: set<Lba>, k: Lba)
    requires Early(free, places, hint, a) && Early(free, places, hint, b) && 0 !in free
    ensures k in a <==> k in b
    decreases |Before(free, hint, k)|
  {
    if k in free && k in places {
      forall x | x in Before(free, hint, k)
        ensures x in a <==> x in b
      {
        BeforeGrows(free, hint, x, k);
        SameEarly(free, places, hint, a, b, x);
      }
      assert Before(free, hint, k) - a == Before(free, hint, k) - b;
      var j :| 0 <= j < |places| && places[j] == k;
    }
  }

  /** There is a block for each place that is missing: as many as are not marked early. */
  ghost predicate Enough(free: set<Lba>, places: seq<Lba>, hint: Lba) {
    exists early :: Early(free, places, hint, early) && Missing(places, |places|) <= |free - early|
  }

  lemma EnoughIs(free: set<Lba>, places: seq<Lba>, hint: Lba, early: set<Lba>)
    requires Early(free, places, hint, early) && 0 !in free
    ensures Enough(free, places, hint) <==> Missing(places, |places|) <= |free - early|
  {
    if Enough(free, places, hint) {
      var other :| Early(free, places, hint, other) && Missing(places, |places|) <= |free - other|;
      EarlyIsUnique(free, places, hint, early, other);
    }
  }

  /** Where all that is kept has been marked beforehand, it is a matter of counting. */
  lemma EnoughOnceMarked(free: set<Lba>, places: seq<Lba>, hint: Lba)
    requires 0 !in free && forall x :: x in places && x != 0 ==> x !in free
    ensures Enough(free, places, hint) <==> Missing(places, |places|) <= |free|
  {
    assert Early(free, places, hint, {});
    EnoughIs(free, places, hint, {});
    assert free - {} == free;
  }

  /** Place `i` is what was kept, or the nearest block that was free when its turn came. */
  ghost predicate PutAt(free: set<Lba>, places: seq<Lba>, hint: Lba, out: seq<Lba>, i: nat)
    requires |out| <= |places| && i < |out|
  {
    if places[i] != 0 then out[i] == places[i]
    else
      && out[i] in free && out[i] !in out[..i]
      && forall x :: x in free && x !in out[..i] ==> x == out[i] || Sooner(hint, out[i], x)
  }

  /** Mark the kept places, and take the nearest free block for each of the others, in
      their order. There are blocks for all exactly when there are as many free ones that are
      not marked early, and no block is two places exactly when every kept one is marked in
      time. */
  method Furnish(alloc: Allocator, places: seq<Lba>, hint: Lba) returns (r: Result<seq<Lba>, AllocError>)
    requires alloc.Valid() && Distinct(places) && alloc.reserved > 0
    requires forall x :: x in places && x != 0 ==> alloc.IsCovered(x)
    modifies alloc`words, alloc`free, alloc`dirty, alloc`cursor
    ensures alloc.Valid() && alloc.Covered() == old(alloc.Covered())
    ensures r.Ok? ==> |r.value| == |places| && forall i :: 0 <= i < |places| ==>
              PutAt(old(alloc.Free()), places, hint, r.value, i)
    ensures r.Ok? ==> forall x: Lba :: x in alloc.Free() <==> x in old(alloc.Free()) && x !in r.value
    ensures r.Ok? ==> (NoRepeats(r.value) <==> InTime(old(alloc.Free()), places, hint))
    ensures r.Ok? <==> Enough(old(alloc.Free()), places, hint)
  {
    hide FreeBit, FreeBits, Allocator.Free, PutAt, Distinct;
    ghost var free := alloc.Free();
    FreeAbove(alloc);
    var out: seq<Lba> := [];
    var i := 0;
    while i < |places|
      invariant 0 <= i <= |places| && |out| == i && alloc.Valid() && alloc.Covered() == old(alloc.Covered())
      invariant forall k :: 0 <= k < i ==> PutAt(free, places, hint, out, k)
      invariant forall x: Lba :: x in alloc.Free() <==> x in free && x !in out
    {
      var place := places[i];
      if place != 0 {
        assert place in places;
        var marked := alloc.MarkInUse(place);
        match marked {
          case Err(_) => assert false;
          case Ok(_) =>
        }
      } else {
        ghost var was := alloc.Free();
        var taken := alloc.AllocateNear(hint);
        if taken.Err? {
          SettledByEarly(free, places, hint, out);
          return Err(taken.error);
        }
        place := taken.value.lba;
        NearestIsSoonest(was, hint, place);
      }
      OnePlaceMore(free, places, hint, out, place);
      out := out + [place];
      i := i + 1;
    }
    ApartExactly(free, places, hint, out);
    SettledByEarly(free, places, hint, out);
    r := Ok(out);
  }

  lemma NearestIsSoonest(free: set<Lba>, hint: Lba, place: Lba)
    requires place in free
    requires forall x :: x in free && x >= hint ==> hint <= place <= x
    requires (forall x :: x in free ==> x < hint) ==> forall x :: x in free ==> place <= x
    ensures forall x :: x in free ==> x == place || Sooner(hint, place, x)
  {}

  lemma OnePlaceMore(free: set<Lba>, places: seq<Lba>, hint: Lba, out: seq<Lba>, place: Lba)
    requires |out| < |places| && forall k :: 0 <= k < |out| ==> PutAt(free, places, hint, out, k)
    requires if places[|out|] != 0 then place == places[|out|]
             else place in free && place !in out && forall x :: x in free && x !in out ==>
                 x == place || Sooner(hint, place, x)
    ensures forall k :: 0 <= k <= |out| ==> PutAt(free, places, hint, out + [place], k)
  {
    var more := out + [place];
    forall k | 0 <= k <= |out|
      ensures PutAt(free, places, hint, more, k)
    {
      assert more[..k] == out[..k];
      if k < |out| { assert PutAt(free, places, hint, out, k); } else { assert out[..k] == out; }
    }
  }

  /** The blocks found for the first `n` places. */
  ghost function FoundFor(places: seq<Lba>, out: seq<Lba>, n: nat): set<Lba>
    requires n <= |out| <= |places|
  {
    if n == 0 then {} else FoundFor(places, out, n - 1) + if places[n - 1] == 0 then {out[n - 1]} else {}
  }

  lemma {:induction false} FoundIs(places: seq<Lba>, out: seq<Lba>, n: nat)
    requires n <= |out| <= |places|
    ensures forall x :: x in FoundFor(places, out, n) <==> exists i :: 0 <= i < n && places[i] == 0 && out[i] == x
    ensures |FoundFor(places, out, n)| <= Missing(places, n)
    decreases n
  {
    if n > 0 { FoundIs(places, out, n - 1); }
  }

  lemma {:induction false} FoundCount(free: set<Lba>, places: seq<Lba>, hint: Lba, out: seq<Lba>, n: nat)
    requires n <= |out| <= |places| && forall k :: 0 <= k < |out| ==> PutAt(free, places, hint, out, k)
    ensures |FoundFor(places, out, n)| == Missing(places, n)
    decreases n
  {
    hide PutAt, Sooner;
    if n > 0 {
      FoundCount(free, places, hint, out, n - 1);
      if places[n - 1] == 0 {
        FoundOnce(free, places, hint, out, n - 1);
        var less := FoundFor(places, out, n - 1);
        assert FoundFor(places, out, n) == less + {out[n - 1]};
      }
    }
  }

  lemma FoundOnce(free: set<Lba>, places: seq<Lba>, hint: Lba, out: seq<Lba>, i: nat)
    requires i < |out| <= |places| && places[i] == 0 && PutAt(free, places, hint, out, i)
    ensures out[i] !in FoundFor(places, out, i)
  {
    FoundIs(places, out, i);
    hide FoundFor, Missing, Sooner;
    forall l | 0 <= l < i
      ensures out[l] != out[i]
    {
      assert out[..i][l] == out[l];
    }
  }

  lemma {:induction false} MissingGrows(places: seq<Lba>, m: nat, n: nat)
    requires m < n <= |places| && places[m] == 0
    ensures Missing(places, m) < Missing(places, n)
    decreases n
  {
    if m + 1 < n { MissingGrows(places, m, n - 1); }
  }

  /** What is kept, still free and not taken for another place once all are done, or once
      nothing is left. */
  lemma SettledByEarly(free: set<Lba>, places: seq<Lba>, hint: Lba, out: seq<Lba>)
    requires |out| <= |places| && Distinct(places) && 0 !in free && forall k :: 0 <= k < |out| ==>
              PutAt(free, places, hint, out, k)
    requires |out| == |places| || (places[|out|] == 0 && forall x :: x in free ==> x in out)
    ensures Enough(free, places, hint) <==> |out| == |places|
  {
    var taken := FoundFor(places, out, |out|);
    FoundIs(places, out, |out|);
    FoundCount(free, places, hint, out, |out|);
    var early := set x: Lba | x in free && x in places && x !in taken;
    forall j | 0 <= j < |places| && places[j] != 0 && places[j] in free
      ensures places[j] in early <==> Missing(places, j) <= |Before(free, hint, places[j]) - early|
    {
      if places[j] in early { EarlyWaits(free, places, hint, out, early, j); }
          else { LateIsTaken(free, places, hint, out, early, j); }
    }
    TakenIsTheRest(free, places, hint, out, early);
    EnoughIs(free, places, hint, early);
  }

  /** What is taken is all but the early ones, as far as the places go. */
  lemma TakenIsTheRest(free: set<Lba>, places: seq<Lba>, hint: Lba, out: seq<Lba>, early: set<Lba>)
    requires |out| <= |places| && forall k :: 0 <= k < |out| ==> PutAt(free, places, hint, out, k)
    requires |out| == |places| || (places[|out|] == 0 && forall x :: x in free ==> x in out)
    requires early == set x: Lba | x in free && x in places && x !in FoundFor(places, out, |out|)
    ensures Missing(places, |places|) <= |free - early| <==> |out| == |places|
  {
    var taken := FoundFor(places, out, |out|);
    FoundIs(places, out, |out|);
    FoundCount(free, places, hint, out, |out|);
    forall x | x in taken
      ensures x in free - early
    {
      var i :| 0 <= i < |out| && places[i] == 0 && out[i] == x;
      assert PutAt(free, places, hint, out, i);
    }
    SubsetSize(taken, free - early);
    if |out| < |places| {
      forall x | x in free - early
        ensures x in taken
      {
        var i :| 0 <= i < |out| && out[i] == x;
        assert PutAt(free, places, hint, out, i);
      }
      SubsetSize(free - early, taken);
      MissingGrows(places, |out|, |places|);
    }
  }

  /** When nothing is left, a block kept for a later place has been taken. */
  lemma LastIsTaken(free: set<Lba>, places: seq<Lba>, hint: Lba, out: seq<Lba>, j: nat)
    requires |out| <= j < |places| && Distinct(places) && forall k :: 0 <= k < |out| ==>
              PutAt(free, places, hint, out, k)
    requires places[j] != 0 && places[j] in free && forall x :: x in free ==> x in out
    ensures places[j] in FoundFor(places, out, |out|)
  {
    FoundIs(places, out, |out|);
    var i :| 0 <= i < |out| && out[i] == places[j];
    assert PutAt(free, places, hint, out, i);
  }

  /** Before a place that was marked early as many others are taken as are to be found. */
  lemma EarlyWaits(free: set<Lba>, places: seq<Lba>, hint: Lba, out: seq<Lba>, early: set<Lba>, j: nat)
    requires |out| <= |places| && Distinct(places) && 0 !in free && forall k :: 0 <= k < |out| ==>
              PutAt(free, places, hint, out, k)
    requires |out| == |places| || (places[|out|] == 0 && forall x :: x in free ==> x in out)
    requires early == set x: Lba | x in free && x in places && x !in FoundFor(places, out, |out|)
    requires j < |places| && places[j] in early
    ensures Missing(places, j) <= |Before(free, hint, places[j]) - early|
  {
    hide FoundFor, Missing;
    var key := places[j];
    FoundIs(places, out, |out|);
    if |out| <= j { LastIsTaken(free, places, hint, out, j); }
    var sooner := FoundFor(places, out, j);
    FoundIs(places, out, j);
    FoundCount(free, places, hint, out, j);
    forall x | x in sooner
      ensures x in Before(free, hint, key) - early
    {
      var i :| 0 <= i < j && places[i] == 0 && out[i] == x;
      assert PutAt(free, places, hint, out, i);
      if key in out[..i] {
        var l :| 0 <= l < i && out[l] == key;
        assert PutAt(free, places, hint, out, l);
      }
    }
    SubsetSize(sooner, Before(free, hint, key) - early);
  }

  /** A kept place that was taken for another had too little before it. */
  lemma LateIsTaken(free: set<Lba>, places: seq<Lba>, hint: Lba, out: seq<Lba>, early: set<Lba>, j: nat)
    requires |out| <= |places| && Distinct(places) && 0 !in free && forall k :: 0 <= k < |out| ==>
              PutAt(free, places, hint, out, k)
    requires early == set x: Lba | x in free && x in places && x !in FoundFor(places, out, |out|)
    requires j < |places| && places[j] in free && places[j] !in early
    ensures Missing(places, j) > |Before(free, hint, places[j]) - early|
  {
    hide FoundFor, Missing;
    var key := places[j];
    FoundIs(places, out, |out|);
    var i :| 0 <= i < |out| && places[i] == 0 && out[i] == key;
    TakenBeforeKept(free, places, hint, out, i, j);
    FoundIs(places, out, i);
    forall x | x in Before(free, hint, key) - early
      ensures x in FoundFor(places, out, i)
    {
      assert PutAt(free, places, hint, out, i);
      var l :| 0 <= l < i && out[..i][l] == x;
      assert PutAt(free, places, hint, out, l);
      if places[l] != 0 {
        var o :| 0 <= o < |out| && places[o] == 0 && out[o] == x;
        TakenBeforeKept(free, places, hint, out, o, l);
      }
    }
    SubsetSize(Before(free, hint, key) - early, FoundFor(places, out, i));
    MissingGrows(places, i, j);
  }

  /** A block that is taken for one place and kept as another is taken first. */
  lemma TakenBeforeKept(free: set<Lba>, places: seq<Lba>, hint: Lba, out: seq<Lba>, i: nat, j: nat)
    requires |out| <= |places| && i < |out| && j < |places| && 0 !in free && forall k :: 0 <= k < |out| ==>
              PutAt(free, places, hint, out, k)
    requires places[i] == 0 && places[j] == out[i]
    ensures i < j
  {
    assert PutAt(free, places, hint, out, i);
    forall l | 0 <= l < i
      ensures out[l] != out[i]
    {
      assert out[..i][l] == out[l];
    }
    if j < |out| { assert PutAt(free, places, hint, out, j); }
  }

  lemma ApartExactly(free: set<Lba>, places: seq<Lba>, hint: Lba, out: seq<Lba>)
    requires |out| == |places| && Distinct(places) && 0 !in free && forall k :: 0 <= k < |out| ==>
              PutAt(free, places, hint, out, k)
    ensures NoRepeats(out) <==> InTime(free, places, hint)
  {
    if NoRepeats(out) {
      forall j | 0 <= j < |places| && places[j] != 0 && places[j] in free
        ensures Missing(places, j) <= |Nearer(free, places, hint, places[j])|
      {
        ApartIsInTime(free, places, hint, out, j);
      }
    } else {
      var a, b :| 0 <= a < b < |out| && out[a] == out[b];
      TwiceIsLate(free, places, hint, out, a, b);
    }
  }

  lemma FoundIsNearer(free: set<Lba>, places: seq<Lba>, hint: Lba, out: seq<Lba>, i: nat, j: nat)
    requires |out| == |places| && NoRepeats(out) && 0 !in free && forall k :: 0 <= k < |out| ==>
              PutAt(free, places, hint, out, k)
    requires i < j < |places| && places[i] == 0 && places[j] != 0 && places[j] in free
    ensures out[i] in Nearer(free, places, hint, places[j])
  {
    assert PutAt(free, places, hint, out, i) && PutAt(free, places, hint, out, j);
    assert forall k :: 0 <= k < i ==> out[..i][k] == out[k];
    forall l | 0 <= l < |places|
      ensures places[l] != out[i]
    {
      assert PutAt(free, places, hint, out, l);
    }
  }

  lemma ApartIsInTime(free: set<Lba>, places: seq<Lba>, hint: Lba, out: seq<Lba>, j: nat)
    requires |out| == |places| && NoRepeats(out) && 0 !in free && forall k :: 0 <= k < |out| ==>
              PutAt(free, places, hint, out, k)
    requires j < |places| && places[j] != 0 && places[j] in free
    ensures Missing(places, j) <= |Nearer(free, places, hint, places[j])|
  {
    FoundIs(places, out, j);
    FoundCount(free, places, hint, out, j);
    forall x | x in FoundFor(places, out, j)
      ensures x in Nearer(free, places, hint, places[j])
    {
      var i :| 0 <= i < j && places[i] == 0 && out[i] == x;
      FoundIsNearer(free, places, hint, out, i, j);
    }
    SubsetSize(FoundFor(places, out, j), Nearer(free, places, hint, places[j]));
  }

  lemma TwiceIsLate(free: set<Lba>, places: seq<Lba>, hint: Lba, out: seq<Lba>, a: nat, b: nat)
    requires |out| == |places| && Distinct(places) && a < b < |out| && out[a] == out[b]
    requires forall k :: 0 <= k < |out| ==> PutAt(free, places, hint, out, k)
    ensures !InTime(free, places, hint)
  {
    assert PutAt(free, places, hint, out, a) && PutAt(free, places, hint, out, b);
    assert out[..b][a] == out[a];
    var k := places[b];
    assert k != 0 && places[a] == 0 && k in free;
    FoundIs(places, out, a);
    forall x | x in Nearer(free, places, hint, k)
      ensures x in FoundFor(places, out, a)
    {
      assert x in out[..a];
      var i :| 0 <= i < a && out[..a][i] == x;
      assert PutAt(free, places, hint, out, i);
    }
    SubsetSize(Nearer(free, places, hint, k), FoundFor(places, out, a));
    MissingGrows(places, a, b);
  }

  // ---- The whole of it ---------------------------------------------------------------------------------

  /** Everything the old bitmap calls allocated and everything reached is taken, `free` is left. */
  ghost predicate Unclaimed(alloc: Allocator, was: OldBitmap, reached: set<Lba>, free: set<Lba>)
    reads alloc`words
  {
    forall x: Lba :: x in free <==>
        alloc.IsCovered(x) && !Claims(was.words, alloc.reserved, x) && !(x in reached && x < alloc.blockCount)
  }

  /** RebuildBitmap the bitmap in memory, from one that calls every block free. Free are in the
      end the blocks that neither the old bitmap nor the walk claims and that hold no part
      of the new one; what has been replaced was one of these. */
  method RebuildBitmap(alloc: Allocator, was: OldBitmap, reached: set<Lba>, root: Lba)
    returns (r: Result<(seq<Lba>, seq<Lba>), AllocError>, ghost free: set<Lba>)
    requires alloc.Valid() && alloc.reserved > 0 && alloc.blockCount <= alloc.reserved + alloc.Covered()
    requires forall x: Lba :: alloc.IsCovered(x) ==> x in alloc.Free()
    requires Distinct(was.pages + was.exts) && forall x :: x in was.pages + was.exts && x != 0 ==> alloc.IsCovered(x)
    modifies alloc`words, alloc`free, alloc`dirty, alloc`cursor
    ensures alloc.Valid() && alloc.Covered() == old(alloc.Covered()) && Unclaimed(alloc, was, reached, free)
    ensures r.Ok? ==>
              && |r.value.0| == |was.pages| && |r.value.1| == |was.exts|
              && (forall x: Lba :: x in alloc.Free() <==> x in free && x !in r.value.0 && x !in r.value.1)
              && (forall i :: 0 <= i < |was.pages| ==>
                  if was.pages[i] != 0 then r.value.0[i] == was.pages[i] else r.value.0[i] in free)
              && (forall i :: 0 <= i < |was.exts| ==>
                  if was.exts[i] != 0 then r.value.1[i] == was.exts[i] else r.value.1[i] in free)
    ensures r.Ok? ==> (NoRepeats(r.value.0 + r.value.1) <==> InTime(free, was.pages + was.exts, root + 1))
    ensures r.Ok? <==> Enough(free, was.pages + was.exts, root + 1)
  {
    hide FreeBit, FreeBits, Allocator.Free, Distinct, InTime, NoRepeats, Claims, Enough, PutAt;
    FreeIsCovered(alloc);
    MarkClaims(alloc, was.words);
    var marked := MarkReached(alloc, alloc.blockCount, reached);
    free := alloc.Free();
    var places := was.pages + was.exts;
    var furnished := Furnish(alloc, places, root + 1);
    match furnished {
      case Err(e) => r := Err(e);
      case Ok(out) =>
        SplitPlaces(free, places, root + 1, out, was.pages, was.exts);
        r := Ok((out[..|was.pages|], out[|was.pages|..]));
    }
  }

  lemma FreeIsCovered(alloc: Allocator)
    ensures forall x: Lba :: x in alloc.Free() ==> alloc.IsCovered(x)
  {}

  lemma SplitPlaces(free: set<Lba>, places: seq<Lba>, hint: Lba, out: seq<Lba>, pages: seq<Lba>, exts: seq<Lba>)
    requires places == pages + exts && |out| == |places| && forall i :: 0 <= i < |places| ==>
              PutAt(free, places, hint, out, i)
    ensures var a, b := out[..|pages|], out[|pages|..];
            && a + b == out && (forall x :: x in out <==> x in a || x in b)
            && (forall i :: 0 <= i < |pages| ==> if pages[i] != 0 then a[i] == pages[i] else a[i] in free)
            && (forall i :: 0 <= i < |exts| ==> if exts[i] != 0 then b[i] == exts[i] else b[i] in free)
  {
    var a, b := out[..|pages|], out[|pages|..];
    assert a + b == out;
    forall i | 0 <= i < |pages|
      ensures if pages[i] != 0 then a[i] == pages[i] else a[i] in free
    {
      assert PutAt(free, places, hint, out, i);
    }
    forall i | 0 <= i < |exts|
      ensures if exts[i] != 0 then b[i] == exts[i] else b[i] in free
    {
      assert PutAt(free, places, hint, out, |pages| + i);
    }
  }

  /** Where all that is kept has been marked beforehand, no block is two places. */
  lemma MarkedBeforehand(free: set<Lba>, places: seq<Lba>, hint: Lba)
    requires forall x :: x in places && x != 0 ==> x !in free
    ensures InTime(free, places, hint)
  {}

  /** A volume of two pages: the pointer to the first is lost, the second is kept where the
      search for a new one begins, and its checksum is wrong, so that nothing in it is
      believed. One block becomes both. */
  method TwoPagesInOne() returns (pages: seq<Lba>)
    ensures pages == [4066, 4066]
  {
    hide FreeBit, FreeBits, Allocator.Free, InTime, Claims, Unclaimed, NoRepeats, Enough;
    var words: seq<Word> := seq(254, i => ALL_ONES);
    var alloc := new Allocator.FromParts(2, 8130, 127, [0, 4066], words, true, 2);
    NothingClaimed(alloc, words);
    OneOfTwoKept(4066);
    var r;
    ghost var free;
    r, free := RebuildBitmap(alloc, OldBitmap([0, 4066], [], words), {4065}, 4065);
    OnlyTheRoot(alloc, words, free);
    assert {4066, 4067, 4068} <= free;
    SubsetSize({4066, 4067, 4068}, free);
    assert [0, 4066] + [] == [0, 4066];
    TakenFirst(free, 4066);
    OneIsLeft(free, [0, 4066], 4066, 4067);
    match r {
      case Ok(v) =>
        assert v.0 + v.1 == v.0;
        pages := v.0;
        TwoAlike(pages, 4066);
    }
  }

  lemma OneIsLeft(free: set<Lba>, places: seq<Lba>, hint: Lba, x: Lba)
    requires x in free && x !in places && |places| == 2 && places[0] == 0 && places[1] == hint != 0 && hint in free
              && 0 !in free
    ensures Enough(free, places, hint)
  {
    assert Missing(places, 0) == 0 && Missing(places, 1) == 1 && Missing(places, 2) == 1;
    assert Before(free, hint, hint) == {};
    assert Early(free, places, hint, {});
    SubsetSize({x}, free - {});
  }

  lemma OneOfTwoKept(x: Lba)
    ensures Distinct([0, x] + [])
  {}

  lemma TwoAlike(pages: seq<Lba>, x: Lba)
    requires |pages| == 2 && pages[1] == x && !NoRepeats(pages)
    ensures pages == [x, x]
  {}

  /** A kept place right where the search begins, after one that is missing, is not marked in time. */
  lemma TakenFirst(free: set<Lba>, hint: Lba)
    requires hint in free && hint != 0
    ensures !InTime(free, [0, hint], hint)
  {
    var places := [0, hint];
    assert Missing(places, 0) == 0 && Missing(places, 1) == 1;
    assert forall x :: !Sooner(hint, x, places[1]);
    assert Nearer(free, places, hint, places[1]) == {};
  }

  lemma NothingClaimed(alloc: Allocator, words: seq<Word>)
    requires alloc.words == words && |words| == 254 && alloc.reserved == 2 && alloc.blockCount == 8130
    requires forall i :: 0 <= i < |words| ==> words[i] == ALL_ONES
    ensures alloc.Covered() == 8128 && forall x: Lba :: alloc.IsCovered(x) ==> x in alloc.Free()
    ensures forall x: Lba :: !Claims(words, 2, x)
  {
    forall k: nat | k < 32
      ensures Bit(ALL_ONES, k)
    {
      ZeroBit(k);
      NotBit(0, k);
    }
  }

  lemma OnlyTheRoot(alloc: Allocator, words: seq<Word>, free: set<Lba>)
    requires alloc.reserved == 2 && alloc.blockCount == 8130 && alloc.Covered() == 8128
              && Unclaimed(alloc, OldBitmap([0, 4066], [], words), {4065}, free)
    requires forall x: Lba :: !Claims(words, 2, x)
    ensures {4066, 4067, 4068} <= free && 0 !in free
  {}
}
