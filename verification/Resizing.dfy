/**
 How small a volume can be made: the checks a resize makes before its first write, and the
 search for the least size that passes those about the root and the data past the cut.
 */
module Resizing {
  import opened Disk
  import opened Directories
  import opened Allocation

  /** A volume as its bitmap and its root describe it: for each block from `reserved` on,
      whether it is allocated, as far as the bitmap says; where the root is, the bitmap's
      pages and extension blocks, and the root's own cache. */
  datatype Survey = Survey(reserved: nat, count: nat, bits: seq<Option<bool>>, root: Lba, pages: seq<Lba>,
          exts: seq<Lba>, cache: seq<Lba>)

  predicate Reports(v: Survey, x: Lba, taken: bool) {
    v.reserved <= x < v.count && x - v.reserved < |v.bits| && v.bits[x - v.reserved] == Some(taken)
  }

  /** What a resize moves: the root, the bitmap and the root's cache. */
  predicate Movable(v: Survey, x: Lba) {
    x == v.root || x in v.pages || x in v.exts || x in v.cache
  }

  /** What the new root may be written over. */
  predicate RootSafe(v: Survey, x: Lba) {
    x == v.root || x in v.pages || x in v.exts
  }

  /** Data: allocated, and nothing a resize moves. */
  predicate Pinned(v: Survey, x: Lba) {
    Reports(v, x, true) && !Movable(v, x)
  }

  /** The root is in the middle of the blocks that are not reserved. */
  function RootAt(size: nat, reserved: nat): (root: Lba)
    requires reserved < size
    ensures reserved <= root < size
  {
    reserved + (size - reserved - 1) / 2
  }

  /** The least size with its root at `root`, and the root of a size: each undoes the other,
      up to the one size in two that has the same root as the one before. */
  function SizeFor(root: Lba, reserved: nat): nat
    requires reserved <= root
  {
    reserved + 1 + 2 * (root - reserved)
  }

  lemma RootOfSize(root: Lba, reserved: nat, size: nat)
    requires reserved <= root && reserved < size
    ensures RootAt(SizeFor(root, reserved), reserved) == root
    ensures RootAt(size, reserved) == root <==> size == SizeFor(root, reserved) || size == SizeFor(root, reserved) + 1
    ensures RootAt(size, reserved) < root <==> size < SizeFor(root, reserved)
  {}

  predicate RootOk(v: Survey, root: Lba) {
    RootSafe(v, root) || root >= v.count || !Reports(v, root, true)
  }

  /** Size `n` passes the two checks about what is in the way. */
  ghost predicate Clears(v: Survey, n: nat) {
    && v.reserved < n && RootOk(v, RootAt(n, v.reserved))
    && (n < v.count ==> forall x: Lba :: Pinned(v, x) ==> x < n)
  }

  /** One more than the last block of data; no data at all counts as room for a root. */
  method AllocatedFloor(v: Survey) returns (floor: nat)
    ensures v.reserved < floor && forall x: Lba :: Pinned(v, x) ==> x < floor
    ensures floor == v.reserved + 1 || Pinned(v, floor - 1)
  {
    floor := v.reserved + 1;
    var x := v.reserved;
    while x < v.count
      invariant v.reserved <= x && v.reserved < floor
      invariant forall y: Lba :: Pinned(v, y) && y < x ==> y < floor
      invariant floor == v.reserved + 1 || Pinned(v, floor - 1)
    {
      if Reports(v, x, true) && x + 1 > floor && !Movable(v, x) {
        floor := x + 1;
      }
      x := x + 1;
    }
  }

  /** The least size that passes both checks. It is no more than the volume has where the
      root is where that size puts it. */
  method MinimumSize(v: Survey) returns (size: nat)
    ensures Clears(v, size) && forall n :: Clears(v, n) ==> size <= n
    ensures v.reserved < v.count && v.root == RootAt(v.count, v.reserved) ==> size <= v.count
    ensures forall x: Lba :: Pinned(v, x) ==> x < size
  {
    var floor := AllocatedFloor(v);
    if floor > v.count {
      return floor;
    }
    var first := RootAt(floor, v.reserved);
    var root := first;
    while root < v.count && Reports(v, root, true) && !RootSafe(v, root)
      invariant first <= root && forall x :: first <= x < root ==> !RootOk(v, x)
      invariant v.reserved < v.count && v.root == RootAt(v.count, v.reserved) ==> root <= v.root
    {
      root := root + 1;
    }
    var least := SizeFor(root, v.reserved);
    RootOfSize(root, v.reserved, floor);
    size := if least < floor then floor else least;
    forall n | Clears(v, n)
      ensures size <= n
    {
      LeastFits(v, floor, first, root, n);
    }
  }

  lemma LeastFits(v: Survey, floor: nat, first: Lba, root: Lba, n: nat)
    requires Clears(v, n) && v.reserved < floor <= v.count && first == RootAt(floor, v.reserved) <= root
    requires (floor == v.reserved + 1 || Pinned(v, floor - 1)) && forall x :: first <= x < root ==> !RootOk(v, x)
    ensures floor <= n && SizeFor(root, v.reserved) <= n
  {
    RootOfSize(root, v.reserved, n);
    RootOfSize(first, v.reserved, n);
  }

  // ---- What a resize refuses -----------------------------------------------------------------------

  datatype ResizeError =
    | NoRoot(size: nat)
    | VolumeTooLarge(size: nat)
    | SinkTooSmall(size: nat, sink: nat)
    | RootTargetOccupied(lba: Lba)
    | UserDataPastCut(lba: Lba, size: nat)
    | NoRoomBelowCut
    | Alloc(error: AllocError)

  /** Where the root goes and where the blocks of its cache stay or go. */
  datatype Move = Move(root: Lba, cache: seq<Lba>)

  const LARGEST := 0xFFFF_FFFF

  /** The medium has the blocks, as far as it says. */
  predicate MediumHas(v: Survey, n: nat, sink: Option<nat>) {
    n > v.count && sink.Some? ==> n <= sink.value
  }

  /** A cache block that has to go elsewhere. */
  predicate Displaced(v: Survey, n: nat, x: Lba)
    requires v.reserved < n
  {
    n <= x || x == RootAt(n, v.reserved)
  }

  function DisplacedIn(v: Survey, n: nat, cache: seq<Lba>): nat
    requires v.reserved < n
  {
    if cache == [] then 0
    else DisplacedIn(v, n, cache[..|cache| - 1]) + if Displaced(v, n, cache[|cache| - 1]) then 1 else 0
  }

  /** The free blocks that stay. */
  ghost function FreeBelow(v: Survey, n: nat): set<Lba> {
    set x: Lba | x < v.count && x < n && Reports(v, x, false)
  }

  /** Of the free blocks below the cut that are not spoken for, `x` is the lowest. */
  ghost predicate LowestLeft(v: Survey, n: nat, claimed: seq<Lba>, x: Lba) {
    x in FreeBelow(v, n) && x !in claimed && forall y :: y in FreeBelow(v, n) && y !in claimed ==> x <= y
  }

  /** The lowest free block below the cut that is not spoken for. */
  method PickFree(v: Survey, claimed: seq<Lba>, n: nat) returns (r: Option<Lba>)
    ensures r.Some? ==> LowestLeft(v, n, claimed, r.value)
    ensures r.None? ==> FreeBelow(v, n) <= SetOf(claimed)
  {
    var x := v.reserved;
    while x < v.count
      invariant v.reserved <= x && forall y :: y in FreeBelow(v, n) && y < x ==> y in claimed
    {
      if Reports(v, x, false) && x < n && x !in claimed {
        return Some(x);
      }
      x := x + 1;
    }
    r := None;
  }

  /** The bitmap calls every block of the root's cache allocated, and none is there twice. */
  predicate CacheHeld(v: Survey) {
    (forall x :: x in v.cache ==> !Reports(v, x, false)) && forall i, j :: 0 <= i < j < |v.cache| ==>
        v.cache[i] != v.cache[j]
  }

  /** Block `i` of the cache stays where it is or, displaced, goes to the lowest block left. */
  ghost predicate PlacedAt(v: Survey, n: nat, done: seq<Lba>, places: seq<Lba>, i: nat)
    requires v.reserved < n && i < |done| == |places|
  {
    if Displaced(v, n, done[i]) then LowestLeft(v, n, [RootAt(n, v.reserved)] + places[..i], places[i])
        else places[i] == done[i]
  }

  /** What has been found a place for: `done` of the cache, and the new root. */
  ghost predicate Placing(v: Survey, n: nat, done: seq<Lba>, places: seq<Lba>, claimed: seq<Lba>)
    requires v.reserved < n
  {
    && |places| == |done| && claimed == [RootAt(n, v.reserved)] + places
    && (forall i :: 0 <= i < |done| ==> PlacedAt(v, n, done, places, i))
    && (CacheHeld(v) && (forall x :: x in done ==> x in v.cache) && NoRepeats(done) ==> NoRepeats(claimed))
    && (CacheHeld(v) && (forall x :: x in done ==> x in v.cache) ==> Tallies(v, n, done, claimed))
  }

  /** Every block moved has taken one of the free ones. */
  ghost predicate Tallies(v: Survey, n: nat, done: seq<Lba>, claimed: seq<Lba>)
    requires v.reserved < n
  {
    |FreeBelow(v, n) - SetOf(claimed)| + DisplacedIn(v, n, done) == |FreeBelow(v, n) - {RootAt(n, v.reserved)}|
  }

  lemma DisplacedMore(v: Survey, n: nat, done: seq<Lba>, x: Lba)
    requires v.reserved < n
    ensures DisplacedIn(v, n, done + [x]) == DisplacedIn(v, n, done) + if Displaced(v, n, x) then 1 else 0
  {
    assert (done + [x])[..|done|] == done;
  }

  lemma TalliesOn(v: Survey, n: nat, done: seq<Lba>, claimed: seq<Lba>, x: Lba, place: Lba)
    requires v.reserved < n && Tallies(v, n, done, claimed) && !Reports(v, x, false)
    requires if Displaced(v, n, x) then place in FreeBelow(v, n) - SetOf(claimed) else place == x
    ensures Tallies(v, n, done + [x], claimed + [place])
  {
    SetOfMore(claimed, place);
    DisplacedMore(v, n, done, x);
    hide DisplacedIn, SetOf;
    var free, was := FreeBelow(v, n), SetOf(claimed);
    if Displaced(v, n, x) {
      SizeLess(free, was, place);
    } else {
      assert place !in free;
      assert free - was == free - (was + {place});
    }
  }

  lemma SizeLess(a: set<Lba>, b: set<Lba>, x: Lba)
    requires x in a && x !in b
    ensures |a - b| == |a - (b + {x})| + 1
  {
    assert a - b == (a - (b + {x})) + {x};
  }

  lemma NothingPlaced(v: Survey, n: nat)
    requires v.reserved < n
    ensures Placing(v, n, [], [], [RootAt(n, v.reserved)])
  {
    var root := RootAt(n, v.reserved);
    assert SetOf([root]) == {root};
    assert [root] + [] == [root];
  }

  /** One block more has its place. */
  lemma OnePlaced(v: Survey, n: nat, done: seq<Lba>, places: seq<Lba>, claimed: seq<Lba>, x: Lba, place: Lba)
    requires v.reserved < n && Placing(v, n, done, places, claimed)
    requires if Displaced(v, n, x) then LowestLeft(v, n, claimed, place) else place == x
    ensures Placing(v, n, done + [x], places + [place], claimed + [place])
  {
    hide Tallies, DisplacedIn, NoRepeats, CacheHeld, LowestLeft, Displaced;
    PlacedOn(v, n, done, places, x, place);
    if Displaced(v, n, x) { LowestIsFree(v, n, claimed, place); }
    hide PlacedAt, SetOf;
    assert forall y :: y in done ==> y in done + [x];
    assert claimed + [place] == [RootAt(n, v.reserved)] + (places + [place]);
    assert x in done + [x];
    if CacheHeld(v) && forall y :: y in done + [x] ==> y in v.cache {
      HeldIsNotFree(v, x);
      TalliesOn(v, n, done, claimed, x, place);
      if NoRepeats(done + [x]) {
        PrefixApart(done, x);
        StillApart(v, n, done, places, claimed, x, place);
      }
    }
  }

  lemma LowestIsFree(v: Survey, n: nat, claimed: seq<Lba>, place: Lba)
    requires LowestLeft(v, n, claimed, place)
    ensures place in FreeBelow(v, n) - SetOf(claimed)
  {}

  lemma PlacedOn(v: Survey, n: nat, done: seq<Lba>, places: seq<Lba>, x: Lba, place: Lba)
    requires v.reserved < n && |places| == |done| && forall i :: 0 <= i < |done| ==> PlacedAt(v, n, done, places, i)
    requires if Displaced(v, n, x) then LowestLeft(v, n, [RootAt(n, v.reserved)] + places, place) else place == x
    ensures forall i :: 0 <= i <= |done| ==> PlacedAt(v, n, done + [x], places + [place], i)
  {
    hide LowestLeft, Displaced;
    var all, more := done + [x], places + [place];
    forall i | 0 <= i <= |done|
      ensures PlacedAt(v, n, all, more, i)
    {
      assert more[..i] == places[..i];
      if i < |done| { assert PlacedAt(v, n, done, places, i); } else { assert places[..i] == places; }
    }
  }

  /** There is one way to place them. */
  lemma {:induction false} PlacesAreDecided(v: Survey, n: nat, done: seq<Lba>, a: seq<Lba>, b: seq<Lba>, i: nat)
    requires v.reserved < n && |a| == |b| == |done| && i <= |done|
    requires forall k :: 0 <= k < |done| ==> PlacedAt(v, n, done, a, k) && PlacedAt(v, n, done, b, k)
    ensures a[..i] == b[..i]
    decreases i
  {
    hide Displaced;
    if i > 0 {
      PlacesAreDecided(v, n, done, a, b, i - 1);
      assert PlacedAt(v, n, done, a, i - 1) && PlacedAt(v, n, done, b, i - 1);
      assert a[..i] == a[..i - 1] + [a[i - 1]] && b[..i] == b[..i - 1] + [b[i - 1]];
    }
  }

  lemma HeldIsNotFree(v: Survey, x: Lba)
    requires CacheHeld(v) && x in v.cache
    ensures !Reports(v, x, false)
  {}

  lemma PrefixApart(done: seq<Lba>, x: Lba)
    requires NoRepeats(done + [x])
    ensures NoRepeats(done) && x !in done
  {
    var all := done + [x];
    assert forall i :: 0 <= i < |done| ==> all[i] == done[i];
    assert all[|done|] == x;
  }

  lemma StillApart(v: Survey, n: nat, done: seq<Lba>, places: seq<Lba>, claimed: seq<Lba>, x: Lba, place: Lba)
    requires v.reserved < n && Placing(v, n, done, places, claimed) && CacheHeld(v) && NoRepeats(done) && x !in done
              && x in v.cache
    requires forall y :: y in done ==> y in v.cache
    requires if Displaced(v, n, x) then place in FreeBelow(v, n) - SetOf(claimed) else place == x
    ensures NoRepeats(claimed + [place])
  {
    forall i | 0 <= i < |claimed|
      ensures claimed[i] != place
    {
      assert claimed[i] in SetOf(claimed);
      if i > 0 && !Displaced(v, n, x) {
        assert claimed[i] == places[i - 1];
        assert done[i - 1] in done;
        assert PlacedAt(v, n, done, places, i - 1);
      }
    }
  }

  lemma {:induction false} DisplacedGrows(v: Survey, n: nat, cache: seq<Lba>, i: nat)
    requires v.reserved < n && i <= |cache|
    ensures DisplacedIn(v, n, cache[..i]) <= DisplacedIn(v, n, cache)
    decreases |cache|
  {
    if i < |cache| {
      DisplacedGrows(v, n, cache[..|cache| - 1], i);
      assert cache[..|cache| - 1][..i] == cache[..i];
    } else {
      assert cache[..i] == cache;
    }
  }

  /** Find every block of the root's cache a place below the cut, away from the new root. */
  method PlaceCache(v: Survey, n: nat) returns (r: Result<seq<Lba>, ResizeError>)
    requires v.reserved < n
    ensures r.Ok? ==> Placing(v, n, v.cache, r.value, [RootAt(n, v.reserved)] + r.value)
    ensures r.Err? ==> r.error == NoRoomBelowCut
    ensures CacheHeld(v) ==> (r.Ok? <==> DisplacedIn(v, n, v.cache) <= |FreeBelow(v, n) - {RootAt(n, v.reserved)}|)
  {
    hide Placing;
    var root := RootAt(n, v.reserved);
    var places: seq<Lba> := [];
    var claimed := [root];
    NothingPlaced(v, n);
    var i := 0;
    while i < |v.cache|
      invariant 0 <= i <= |v.cache| && Placing(v, n, v.cache[..i], places, claimed)
    {
      var place := v.cache[i];
      assert v.cache[..i + 1] == v.cache[..i] + [v.cache[i]];
      if Displaced(v, n, place) {
        var free := PickFree(v, claimed, n);
        if free.None? {
          NoneLeft(v, n, i, places, claimed);
          return Err(NoRoomBelowCut);
        }
        place := free.value;
      }
      OnePlaced(v, n, v.cache[..i], places, claimed, v.cache[i], place);
      places, claimed := places + [place], claimed + [place];
      i := i + 1;
    }
    assert v.cache[..i] == v.cache;
    AllPlaced(v, n, places, claimed);
    r := Ok(places);
  }

  lemma NoneLeft(v: Survey, n: nat, i: nat, places: seq<Lba>, claimed: seq<Lba>)
    requires v.reserved < n && i < |v.cache| && Placing(v, n, v.cache[..i], places, claimed)
              && FreeBelow(v, n) <= SetOf(claimed)
    requires Displaced(v, n, v.cache[i])
    ensures CacheHeld(v) ==> DisplacedIn(v, n, v.cache) > |FreeBelow(v, n) - {RootAt(n, v.reserved)}|
  {
    hide DisplacedIn, SetOf, NoRepeats, CacheHeld, Displaced;
    assert FreeBelow(v, n) - SetOf(claimed) == {};
    assert v.cache[..i + 1] == v.cache[..i] + [v.cache[i]];
    assert forall x :: x in v.cache[..i] ==> x in v.cache;
    DisplacedMore(v, n, v.cache[..i], v.cache[i]);
    DisplacedGrows(v, n, v.cache, i + 1);
  }

  lemma AllPlaced(v: Survey, n: nat, places: seq<Lba>, claimed: seq<Lba>)
    requires v.reserved < n && Placing(v, n, v.cache, places, claimed)
    ensures claimed == [RootAt(n, v.reserved)] + places
    ensures CacheHeld(v) ==> DisplacedIn(v, n, v.cache) <= |FreeBelow(v, n) - {RootAt(n, v.reserved)}|
  {}

  /** Everything a resize to another size asks for before it writes. */
  ghost predicate Accepts(v: Survey, n: nat, sink: Option<nat>) {
    && n <= LARGEST && MediumHas(v, n, sink) && Clears(v, n)
    && DisplacedIn(v, n, v.cache) <= |FreeBelow(v, n) - {RootAt(n, v.reserved)}|
  }

  /** The checks of a resize, in their order, and where the root and its cache are to go;
      a resize to the size the volume has is nothing to do. */
  method PlanResize(v: Survey, n: nat, sink: Option<nat>) returns (r: Result<Move, ResizeError>)
    ensures n == v.count ==> r == Ok(Move(v.root, v.cache))
    ensures n != v.count && CacheHeld(v) ==> (r.Ok? <==> Accepts(v, n, sink))
    ensures n != v.count && r.Ok? ==> Clears(v, n) && r.value.root == RootAt(n, v.reserved)
    ensures n != v.count && r.Ok? ==> Placing(v, n, v.cache, r.value.cache, [r.value.root] + r.value.cache)
    ensures n != v.count && n > LARGEST ==> r == Err(VolumeTooLarge(n))
    ensures n != v.count && n <= v.reserved && n <= LARGEST ==> r == Err(NoRoot(n))
    ensures v.reserved < n <= LARGEST && !MediumHas(v, n, sink) ==> r == Err(SinkTooSmall(n, sink.value))
    ensures n != v.count && v.reserved < n <= LARGEST && MediumHas(v, n, sink) && !RootOk(v, RootAt(n, v.reserved)) ==>
              r == Err(RootTargetOccupied(RootAt(n, v.reserved)))
    ensures r.Err? && r.error.UserDataPastCut? ==>
              n <= r.error.lba && Pinned(v, r.error.lba) && forall x: Lba :: Pinned(v, x) && n <= x ==> r.error.lba <= x
    ensures v.reserved < n < v.count && n <= LARGEST && RootOk(v, RootAt(n, v.reserved))
              && (exists x: Lba :: Pinned(v, x) && n <= x) ==>
              r.Err? && r.error.UserDataPastCut?
    ensures r.Err? && r.error.NoRoomBelowCut? ==> Clears(v, n)
    ensures r.Err? ==> !r.error.Alloc?
  {
    hide Placing;
    if n == v.count {
      return Ok(Move(v.root, v.cache));
    }
    if n > LARGEST {
      return Err(VolumeTooLarge(n));
    }
    if n <= v.reserved {
      return Err(NoRoot(n));
    }
    var root := RootAt(n, v.reserved);
    if n > v.count && sink.Some? && sink.value < n {
      return Err(SinkTooSmall(n, sink.value));
    }
    if !RootSafe(v, root) && root < v.count && Reports(v, root, true) {
      return Err(RootTargetOccupied(root));
    }
    var x := v.reserved;
    while n < v.count && x < v.count
      invariant v.reserved <= x && forall y: Lba :: Pinned(v, y) && y < x && n < v.count ==> y < n
      decreases v.count - x
    {
      if Reports(v, x, true) && x >= n && !Movable(v, x) {
        assert Pinned(v, x) && !Clears(v, n);
        return Err(UserDataPastCut(x, n));
      }
      x := x + 1;
    }
    var placed := PlaceCache(v, n);
    match placed {
      case Err(e) => r := Err(e);
      case Ok(cache) => r := Ok(Move(root, cache));
    }
  }

  /** One block less than the least size, where that is less than the volume has, is refused:
      because there is no room for a root, or else because the new root would be written over
      data, or else because of data in the block right at the cut. */
  lemma OneLessIsRefused(v: Survey, size: nat)
    requires Clears(v, size) && (forall n :: Clears(v, n) ==> size <= n) && size <= v.count
    ensures v.reserved <= size - 1
    ensures v.reserved < size - 1 && RootOk(v, RootAt(size - 1, v.reserved)) ==> Pinned(v, size - 1)
    ensures v.reserved < size - 1 && size < v.count ==> forall x: Lba :: Pinned(v, x) && size - 1 <= x ==> x == size - 1
  {
    if v.reserved < size - 1 && RootOk(v, RootAt(size - 1, v.reserved)) {
      assert !Clears(v, size - 1);
      var x: Lba :| Pinned(v, x) && x >= size - 1;
    }
  }

  /** A volume of eleven blocks, data in the first three that are not reserved: nine is the
      least size, and eight is refused for the sake of the root, no data being past it. */
  lemma PackedFromTheFront()
    ensures var v := Survey(2, 11, [Some(true), Some(true), Some(true), Some(false), Some(true), Some(true),
              Some(false), Some(false), Some(false)],
                            6, [7], [], []);
            && v.root == RootAt(v.count, v.reserved) && Clears(v, 9) && (forall n :: Clears(v, n) ==> 9 <= n)
            && !RootOk(v, RootAt(8, v.reserved)) && forall x: Lba :: Pinned(v, x) ==> x < 8
  {
    var v := Survey(2, 11, [Some(true), Some(true), Some(true), Some(false), Some(true), Some(true), Some(false),
        Some(false), Some(false)],
                    6, [7], [], []);
    assert Pinned(v, 2) && Pinned(v, 3) && Pinned(v, 4) && !Reports(v, 5, true) && RootSafe(v, 6) && RootSafe(v, 7);
    forall n | Clears(v, n)
      ensures 9 <= n
    {
      RootOfSize(5, 2, n);
    }
  }

  /** A volume with a cache whose least size, as the two checks have it, is refused: past
      the cut is a block of the cache, and below it only the one the root goes to is free. */
  lemma NowhereForTheCache()
    ensures var v := Survey(2, 9, [Some(true), Some(false), Some(true), Some(true), Some(true), Some(false),
              Some(true)], 5, [8], [], [6]);
            && v.root == RootAt(v.count, v.reserved) && CacheHeld(v) && Clears(v, 5)
                && (forall n :: Clears(v, n) ==> 5 <= n)
            && !Accepts(v, 5, None)
  {
    var v := Survey(2, 9, [Some(true), Some(false), Some(true), Some(true), Some(true), Some(false), Some(true)], 5,
        [8], [], [6]);
    assert Pinned(v, 2) && Pinned(v, 4) && Reports(v, 3, false) && RootSafe(v, 5);
    forall n | Clears(v, n)
      ensures 5 <= n
    {
      RootOfSize(3, 2, n);
    }
    assert FreeBelow(v, 5) == {3};
    assert v.cache[..0] == [];
    assert DisplacedIn(v, 5, v.cache) == 1;
  }
}
