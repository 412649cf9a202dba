/**
 Directories as maps from names to entries: every entry sits in the chain its name
 hashes to, in the directory it names as its parent, and no two entries of one
 directory have names that fold together.
 */
module Directories {
  import opened Disk
  import opened Names
  import opened Forest

  /** `y` is an entry of some directory of the tree. */
  predicate IsEntry(s: Shape, y: Lba) {
    y in s.up && (s.up[y].link.Slot? || s.up[y].link.Chain?)
  }

  function SlotIn(f: Format, name: Bytes): nat {
    if f.slots == 0 then 0 else SlotOf(name, f.intl, f.slots)
  }

  lemma SlotBound(f: Format, name: Bytes)
    requires f.slots > 0
    ensures SlotIn(f, name) < f.slots
  {}

  /** An entry is named by the pointer the shape records, in the directory and the slot
      it belongs to; along a chain the ranks increase. */
  ghost predicate Placed(d: Disk, f: Format, s: Shape, rank: map<Lba, int>, y: Lba)
    requires IsEntry(s, y)
  {
    var x, l := s.up[y].from, s.up[y].link;
    && 0 < y < |d| && d[y].Header? && s.Owns(x) && x < |d| && At(d[x], l) == y
    && y in rank
    && (l.Slot? ==> d[y].parent == x && l.i == SlotIn(f, d[y].name))
    && (l.Chain? ==> && IsEntry(s, x) && x in rank && rank[x] < rank[y] && d[x].Header?
                     && d[y].parent == d[x].parent && SlotIn(f, d[y].name) == SlotIn(f, d[x].name))
  }

  ghost predicate Distinguished(d: Disk, f: Format, s: Shape, y: Lba, z: Lba)
    requires y < |d| && z < |d| && d[y].Header? && d[z].Header?
  {
    y != z && d[y].parent == d[z].parent ==> !SameName(d[y].name, d[z].name, f.intl)
  }

  ghost predicate Named(d: Disk, f: Format, s: Shape, rank: map<Lba, int>) {
    && (forall y :: IsEntry(s, y) ==> Placed(d, f, s, rank, y))
    && (forall y, z :: IsEntry(s, y) && IsEntry(s, z) ==> Distinguished(d, f, s, y, z))
    && (forall x: Lba :: s.Owns(x) && x < |d| && IsDirectory(d[x]) ==> |HashTable(d[x])| == f.slots)
  }

  /** The entry of directory `dir` that a lookup of `name` must find. */
  predicate Matches(d: Disk, f: Format, s: Shape, dir: Lba, name: Bytes, y: Lba) {
    IsEntry(s, y) && y < |d| && d[y].Header? && d[y].parent == dir && SameName(d[y].name, name, f.intl)
  }

  // ---- Walking a chain meets every entry of its slot ------------------------------

  /** `seen` holds what slot `i` of `dir` names and whatever its blocks chain to. */
  ghost predicate WalkedOut(d: Disk, dir: Lba, i: nat, seen: set<Lba>) {
    && dir < |d| && IsDirectory(d[dir])
    && (At(d[dir], Slot(i)) == 0 || At(d[dir], Slot(i)) in seen)
    && (forall x :: x in seen && x < |d| && At(d[x], Chain) != 0 ==> At(d[x], Chain) in seen)
  }

  lemma {:induction false} WalkMeets(d: Disk, f: Format, s: Shape, rank: map<Lba, int>, dir: Lba, i: nat,
          seen: set<Lba>, y: Lba, below: set<Lba>)
    requires Named(d, f, s, rank) && WalkedOut(d, dir, i, seen)
    requires IsEntry(s, y) && y < |d| && d[y].Header? && d[y].parent == dir && SlotIn(f, d[y].name) == i
    requires y in rank && below == set x | x in s.up.Keys && x in rank && rank[x] < rank[y]
    ensures y in seen
    decreases |below|
  {
    assert Placed(d, f, s, rank, y);
    var x, l := s.up[y].from, s.up[y].link;
    if l.Chain? {
      assert Placed(d, f, s, rank, x);
      var lower := set z | z in s.up.Keys && z in rank && rank[z] < rank[x];
      assert x in below && x !in lower && lower <= below;
      SmallerSet(lower, below, x);
      WalkMeets(d, f, s, rank, dir, i, seen, x, lower);
    }
  }

  lemma SmallerSet(a: set<Lba>, b: set<Lba>, x: Lba)
    requires a <= b && x in b && x !in a
    ensures |a| < |b|
  {
    SubsetSize(a, b - {x});
  }

  lemma {:induction false} SubsetSize(a: set<Lba>, b: set<Lba>)
    requires a <= b
    ensures |a| <= |b|
  {
    if a != {} {
      var x :| x in a;
      SubsetSize(a - {x}, b - {x});
    }
  }

  /** A walk of the slot `name` hashes to that met no match misses none. */
  lemma NothingMissed(d: Disk, f: Format, s: Shape, rank: map<Lba, int>, dir: Lba, name: Bytes, seen: set<Lba>)
    requires Named(d, f, s, rank) && f.slots > 0 && WalkedOut(d, dir, SlotIn(f, name), seen)
    requires forall x :: x in seen && x < |d| && d[x].Header? ==> !SameName(d[x].name, name, f.intl)
    ensures forall y :: !Matches(d, f, s, dir, name, y)
  {
    hide Named, SameName, SlotIn, WalkedOut;
    forall y: Lba
      ensures !Matches(d, f, s, dir, name, y)
    {
      if Matches(d, f, s, dir, name, y) {
        SameSlotAlso(d, f, s, rank, name, y);
        WalkMeets(d, f, s, rank, dir, SlotIn(f, name), seen, y, set x | x in s.up.Keys && x in rank
            && rank[x] < rank[y]);
      }
    }
  }

  lemma SameSlotAlso(d: Disk, f: Format, s: Shape, rank: map<Lba, int>, name: Bytes, y: Lba)
    requires Named(d, f, s, rank) && f.slots > 0 && IsEntry(s, y) && y < |d| && d[y].Header?
              && SameName(d[y].name, name, f.intl)
    ensures SlotIn(f, d[y].name) == SlotIn(f, name) && y in rank
  {
    SameNameSameSlot(d[y].name, name, f.intl, f.slots);
    assert Placed(d, f, s, rank, y);
  }

  /** A walk of slot `i` has seen the blocks of `seen` and comes to `next`. */
  ghost predicate Walking(d: Disk, dir: Lba, i: nat, seen: set<Lba>, next: Lba) {
    && dir < |d| && IsDirectory(d[dir])
    && (At(d[dir], Slot(i)) == next || At(d[dir], Slot(i)) in seen)
    && (forall x :: x in seen && x < |d| ==> At(d[x], Chain) == next || At(d[x], Chain) in seen)
  }

  lemma DoneWalking(d: Disk, dir: Lba, i: nat, seen: set<Lba>)
    requires Walking(d, dir, i, seen, 0)
    ensures WalkedOut(d, dir, i, seen)
  {}

  // ---- Volumes in order -----------------------------------------------------------

  /** A pointer a search of the directories follows. */
  predicate IsLead(l: Link) {
    l.Slot? || l.Chain? || l.Note?
  }

  /** Every pointer from directories to entries, along chains and to comments is recorded. */
  ghost predicate Led(d: Disk, s: Shape) {
    && (forall x: Lba :: s.Owns(x) ==> LedFrom(d, s, x))
    && (forall x: Lba :: x in s.orphans ==> x !in s.up && x != s.root)
    && s.root !in s.up
    && forall y: Lba :: y in s.up && y < |d| && s.up[y].link.Note? ==> d[y].Comment?
  }

  ghost predicate LedFrom(d: Disk, s: Shape, x: Lba) {
    && 0 < x < |d|
    && forall l :: IsLead(l) && At(d[x], l) != 0 && !(l.Chain? && x in s.orphans) ==>
         At(d[x], l) in s.up && s.up[At(d[x], l)] == Edge(x, l)
  }

  lemma GrownIsLed(d: Disk, s: Shape)
    requires Grown(d, s)
    ensures Led(d, s)
  {
    forall x: Lba | s.Owns(x)
      ensures LedFrom(d, s, x)
    {
      assert Recorded(d, s, x);
    }
  }

  /** All a search of the directories relies on. */
  ghost predicate InOrder(d: Disk, f: Format, s: Shape, rank: map<Lba, int>) {
    Led(d, s) && Named(d, f, s, rank)
  }

  /** `dir` is a directory of the tree. */
  ghost predicate IsFolder(d: Disk, s: Shape, dir: Lba) {
    dir in s.Members() && dir < |d| && IsDirectory(d[dir])
  }

  /** `y` is an entry of `dir` whose name hashes to slot `i`. */
  ghost predicate InSlot(d: Disk, f: Format, s: Shape, rank: map<Lba, int>, dir: Lba, i: nat, y: Lba) {
    && IsEntry(s, y) && 0 < y < |d| && d[y].Header? && d[y].parent == dir && SlotIn(f, d[y].name) == i
    && y in rank
  }

  ghost predicate Below(rank: map<Lba, int>, seen: set<Lba>, y: Lba) {
    y in rank && forall x :: x in seen ==> x in rank && rank[x] < rank[y]
  }

  lemma HeadIsEntry(d: Disk, f: Format, s: Shape, rank: map<Lba, int>, dir: Lba, i: nat)
    requires InOrder(d, f, s, rank) && IsFolder(d, s, dir)
    ensures |HashTable(d[dir])| == f.slots
    ensures At(d[dir], Slot(i)) != 0 ==> && InSlot(d, f, s, rank, dir, i, At(d[dir], Slot(i)))
                                         && s.up[At(d[dir], Slot(i))] == Edge(dir, Slot(i))
  {
    var y := At(d[dir], Slot(i));
    assert s.Owns(dir) && LedFrom(d, s, dir);
    if y != 0 {
      assert IsEntry(s, y) && Placed(d, f, s, rank, y);
    }
  }

  lemma NextIsEntry(d: Disk, f: Format, s: Shape, rank: map<Lba, int>, dir: Lba, i: nat, x: Lba)
    requires InOrder(d, f, s, rank) && InSlot(d, f, s, rank, dir, i, x)
    ensures d[x].chain != 0 ==> && InSlot(d, f, s, rank, dir, i, d[x].chain) && rank[x] < rank[d[x].chain]
                                && s.up[d[x].chain] == Edge(x, Chain)
  {
    var y := d[x].chain;
    assert At(d[x], Chain) == y && LedFrom(d, s, x);
    if y != 0 {
      assert IsEntry(s, y) && Placed(d, f, s, rank, y);
    }
  }

  lemma {:induction false} SetBelow(s: set<nat>, n: nat)
    requires forall x :: x in s ==> x < n
    ensures |s| <= n
    decreases n
  {
    if n > 0 {
      SetBelow(s - {n - 1}, n - 1);
    } else {
      assert s == {};
    }
  }

  lemma FitsInVolume(visited: set<Lba>, next: Lba, n: nat)
    requires forall x :: x in visited ==> x < n
    requires next < n && next !in visited
    ensures |visited| < n
  {
    SetBelow(visited + {next}, n);
  }

  lemma SlotWalkMeets(d: Disk, f: Format, s: Shape, rank: map<Lba, int>, dir: Lba, i: nat, seen: set<Lba>, y: Lba)
    requires InOrder(d, f, s, rank) && WalkedOut(d, dir, i, seen)
    ensures InSlot(d, f, s, rank, dir, i, y) ==> y in seen
  {
    if InSlot(d, f, s, rank, dir, i, y) {
      WalkMeets(d, f, s, rank, dir, i, seen, y, set x | x in s.up.Keys && x in rank && rank[x] < rank[y]);
    }
  }

  // ---- Listing a directory --------------------------------------------------------

  function SetOf(s: seq<Lba>): set<Lba> {
    set x | x in s
  }

  lemma SetOfMore(s: seq<Lba>, x: Lba)
    ensures SetOf(s + [x]) == SetOf(s) + {x}
  {}

  lemma SetOfBoth(s: seq<Lba>, t: seq<Lba>)
    ensures SetOf(s + t) == SetOf(s) + SetOf(t)
  {}

  ghost predicate NoRepeats(s: seq<Lba>) {
    forall i, j :: 0 <= i < j < |s| ==> s[i] != s[j]
  }

  lemma {:induction false} SizeOfSet(s: seq<Lba>)
    requires NoRepeats(s)
    ensures |SetOf(s)| == |s|
    decreases |s|
  {
    if s != [] {
      var rest := s[..|s| - 1];
      SizeOfSet(rest);
      assert s == rest + [s[|s| - 1]];
      SetOfMore(rest, s[|s| - 1]);
    } else {
      assert SetOf(s) == {};
    }
  }

  lemma SizeOfBoth(a: set<Lba>, b: set<Lba>, all: set<Lba>)
    requires a !! b && a + b == all
    ensures |all| == |a| + |b|
  {}

  lemma FewerLeft(was: set<Lba>, all: seq<Lba>, now: set<Lba>)
    requires NoRepeats(all) && SetOf(all) <= was && now == was - SetOf(all)
    ensures |now| + |all| == |was|
  {
    SizeOfSet(all);
    SizeOfBoth(now, SetOf(all), was);
  }

  lemma Apart(a: seq<Lba>, b: seq<Lba>)
    requires NoRepeats(a) && NoRepeats(b) && forall x :: x in a ==> x !in b
    ensures NoRepeats(a + b)
  {
    forall i, j | 0 <= i < j < |a + b|
      ensures (a + b)[i] != (a + b)[j]
    {
      if i < |a| <= j { assert a[i] in a && b[j - |a|] in b; }
    }
  }

  /** `y` is an entry of directory `dir`. */
  predicate EntryOf(d: Disk, s: Shape, dir: Lba, y: Lba) {
    IsEntry(s, y) && y < |d| && d[y].Header? && d[y].parent == dir
  }

  /** From pointer `head` the chain leads through `list`, in order, to `end`. */
  ghost predicate ChainFrom(d: Disk, head: Lba, list: seq<Lba>, end: Lba)
    decreases |list|
  {
    if list == [] then head == end
        else 0 < head < |d| && head == list[0] && ChainFrom(d, At(d[head], Chain), list[1..], end)
  }

  lemma NoSteps(d: Disk, head: Lba)
    ensures ChainFrom(d, head, [], head)
  {}

  lemma {:induction false} ChainOneMore(d: Disk, head: Lba, list: seq<Lba>, end: Lba)
    requires ChainFrom(d, head, list, end) && 0 < end < |d|
    ensures ChainFrom(d, head, list + [end], At(d[end], Chain))
    decreases |list|
  {
    if list == [] {
      assert ChainFrom(d, At(d[end], Chain), [], At(d[end], Chain));
    } else {
      ChainOneMore(d, At(d[head], Chain), list[1..], end);
      assert (list + [end])[1..] == list[1..] + [end];
    }
  }

  /** `out` is the chain of slot 0, then that of slot 1, and so on up to slot `n`. */
  ghost predicate WalksSlots(d: Disk, dir: Lba, n: nat, out: seq<Lba>)
    requires dir < |d|
  {
    if n == 0 then out == []
    else
      exists k: nat ::
        k <= |out| && WalksSlots(d, dir, n - 1, out[..k]) && ChainFrom(d, At(d[dir], Slot(n - 1)), out[k..], 0)
  }

  /** `out` is the order a walk of the directory's chains, slot by slot, comes by. */
  ghost predicate InWalkOrder(d: Disk, dir: Lba, out: seq<Lba>) {
    dir < |d| && IsDirectory(d[dir]) && WalksSlots(d, dir, |HashTable(d[dir])|, out)
  }

  lemma OneSlotMore(d: Disk, dir: Lba, n: nat, out: seq<Lba>, more: seq<Lba>)
    requires dir < |d| && WalksSlots(d, dir, n, out) && ChainFrom(d, At(d[dir], Slot(n)), more, 0)
    ensures WalksSlots(d, dir, n + 1, out + more)
  {
    var all := out + more;
    assert all[..|out|] == out && all[|out|..] == more;
  }

  /** A chain and what is left of it after its first part. */
  lemma {:induction false} ChainIsDecided(d: Disk, head: Lba, a: seq<Lba>, b: seq<Lba>)
    requires ChainFrom(d, head, a, 0) && ChainFrom(d, head, b, 0)
    ensures a == b
    decreases |a|
  {
    if a != [] { ChainIsDecided(d, At(d[head], Chain), a[1..], b[1..]); }
  }

  /** A walk that has come to `end` is the first part of the whole chain. */
  lemma {:induction false} ChainSoFar(d: Disk, head: Lba, list: seq<Lba>, end: Lba, all: seq<Lba>)
    requires ChainFrom(d, head, list, end) && ChainFrom(d, head, all, 0)
    ensures |list| <= |all| && list == all[..|list|] && (if end == 0 then |all| == |list|
              else |list| < |all| && all[|list|] == end)
    decreases |list|
  {
    if list != [] {
      ChainSoFar(d, At(d[head], Chain), list[1..], end, all[1..]);
      assert list == [head] + list[1..] && all == [head] + all[1..];
    }
  }

  /** The chain of slot `i` of `dir` can be walked to its end and does not come to `target`. */
  ghost predicate Misses(d: Disk, dir: Lba, i: nat, target: Lba) {
    dir < |d| && IsDirectory(d[dir]) &&
        exists path :: ChainFrom(d, At(d[dir], Slot(i)), path, 0) && MissedBy(d, path, target)
  }

  ghost predicate MissedBy(d: Disk, path: seq<Lba>, target: Lba) {
    target !in path && AllHeaders(d, path) && |path| <= |d|
  }

  /** A walk that stops before the end of the chain, or on `target`, is no such walk. */
  lemma CannotMiss(d: Disk, dir: Lba, i: nat, path: seq<Lba>, next: Lba, target: Lba)
    requires dir < |d| && IsDirectory(d[dir]) && ChainFrom(d, At(d[dir], Slot(i)), path, next) && next != 0
    requires next == target || |path| >= |d| || next >= |d| || !d[next].Header?
    ensures !Misses(d, dir, i, target)
  {
    hide ChainFrom, At;
    forall all | ChainFrom(d, At(d[dir], Slot(i)), all, 0)
      ensures !MissedBy(d, all, target)
    {
      ChainSoFar(d, At(d[dir], Slot(i)), path, next, all);
      assert all[|path|] in all;
    }
  }

  /** There is one such order. */
  lemma {:induction false} OrderIsDecided(d: Disk, dir: Lba, n: nat, a: seq<Lba>, b: seq<Lba>)
    requires dir < |d| && WalksSlots(d, dir, n, a) && WalksSlots(d, dir, n, b)
    ensures a == b
    decreases n
  {
    hide At, ChainFrom, IsDirectory;
    if n > 0 {
      var j: nat :| j <= |a| && WalksSlots(d, dir, n - 1, a[..j]) && ChainFrom(d, At(d[dir], Slot(n - 1)), a[j..], 0);
      var k: nat :| k <= |b| && WalksSlots(d, dir, n - 1, b[..k]) && ChainFrom(d, At(d[dir], Slot(n - 1)), b[k..], 0);
      OrderIsDecided(d, dir, n - 1, a[..j], b[..k]);
      ChainIsDecided(d, At(d[dir], Slot(n - 1)), a[j..], b[k..]);
      assert a == a[..j] + a[j..] && b == b[..k] + b[k..];
    }
  }

  /** The slots of `dir` and the chain pointers of `list` are as they were. */
  ghost predicate SameWalk(d: Disk, e: Disk, dir: Lba, list: seq<Lba>) {
    && |e| == |d| && dir < |d| && IsDirectory(d[dir]) && IsDirectory(e[dir])
        && |HashTable(e[dir])| == |HashTable(d[dir])|
    && (forall l: Link :: l.Slot? ==> At(e[dir], l) == At(d[dir], l))
    && forall y :: y in list && y < |d| ==> At(e[y], Chain) == At(d[y], Chain)
  }

  lemma {:induction false} NextsFramed(d: Disk, head: Lba, list: seq<Lba>, end: Lba, e: Disk)
    requires ChainFrom(d, head, list, end) && |e| == |d| && forall y :: y in list && y < |d| ==>
              At(e[y], Chain) == At(d[y], Chain)
    ensures ChainFrom(e, head, list, end)
    decreases |list|
  {
    hide At;
    if list != [] {
      assert list[0] in list && forall y :: y in list[1..] ==> y in list;
      NextsFramed(d, At(d[head], Chain), list[1..], end, e);
    }
  }

  lemma SameWalkOfPart(d: Disk, e: Disk, dir: Lba, list: seq<Lba>, k: nat)
    requires SameWalk(d, e, dir, list) && k <= |list|
    ensures SameWalk(d, e, dir, list[..k]) && |e| == |d| && dir < |d| && forall l: Link :: l.Slot? ==>
              At(e[dir], l) == At(d[dir], l)
    ensures forall y :: y in list[k..] && y < |d| ==> At(e[y], Chain) == At(d[y], Chain)
  {
    hide At, IsDirectory;
    assert forall y :: y in list[..k] || y in list[k..] ==> y in list;
  }

  lemma {:induction false} SlotsFramed(d: Disk, dir: Lba, n: nat, out: seq<Lba>, e: Disk)
    requires dir < |d| && WalksSlots(d, dir, n, out) && SameWalk(d, e, dir, out)
    ensures WalksSlots(e, dir, n, out)
    decreases n
  {
    hide At, ChainFrom, SameWalk;
    if n > 0 {
      var k: nat :| k <= |out| && WalksSlots(d, dir, n - 1, out[..k])
          && ChainFrom(d, At(d[dir], Slot(n - 1)), out[k..], 0);
      SameWalkOfPart(d, e, dir, out, k);
      SlotsFramed(d, dir, n - 1, out[..k], e);
      NextsFramed(d, At(d[dir], Slot(n - 1)), out[k..], 0, e);
      assert At(e[dir], Slot(n - 1)) == At(d[dir], Slot(n - 1));
    }
  }

  /** `out` is the entries of `dir`, each once, in the order a walk of its chains has them. */
  ghost predicate ListsFolder(d: Disk, s: Shape, dir: Lba, out: seq<Lba>) {
    NoRepeats(out) && InWalkOrder(d, dir, out) && forall y: Lba :: y in out <==> EntryOf(d, s, dir, y)
  }

  /** The same for the slots below `n`. */
  ghost predicate ListsSlots(d: Disk, f: Format, s: Shape, dir: Lba, n: nat, out: seq<Lba>) {
    NoRepeats(out) && forall y: Lba :: y in out <==> EntryOf(d, s, dir, y) && SlotIn(f, d[y].name) < n
  }

  ghost predicate Climbing(d: Disk, f: Format, s: Shape, rank: map<Lba, int>, dir: Lba, i: nat, out: seq<Lba>) {
    && (forall y :: y in out ==> InSlot(d, f, s, rank, dir, i, y))
    && (forall j, k :: 0 <= j < k < |out| ==> out[j] in rank && out[k] in rank && rank[out[j]] < rank[out[k]])
  }

  /** The same for slot `i`. */
  ghost predicate ListsSlot(d: Disk, f: Format, s: Shape, rank: map<Lba, int>, dir: Lba, i: nat, out: seq<Lba>) {
    NoRepeats(out) && forall y: Lba :: y in out <==> InSlot(d, f, s, rank, dir, i, y)
  }

  /** Nothing of `seen` is an entry of slot `i` of `dir`. */
  ghost predicate ElsewhereIn(d: Disk, f: Format, s: Shape, dir: Lba, i: nat, seen: set<Lba>) {
    forall x :: x in seen ==> x < |d| && d[x].Header? && !(d[x].parent == dir && SlotIn(f, d[x].name) == i)
  }

  predicate AllBelow(s: set<Lba>, n: nat) {
    forall x :: x in s ==> x < n
  }

  lemma ElsewhereFits(d: Disk, f: Format, s: Shape, rank: map<Lba, int>, dir: Lba, i: nat, seen: set<Lba>,
          mine: set<Lba>, next: Lba)
    requires ElsewhereIn(d, f, s, dir, i, seen) && next != 0 && Coming(d, f, s, rank, dir, i, mine, next)
    requires AllBelow(mine, |d|)
    ensures next !in seen + mine && |seen + mine| < |d|
  {
    FitsInVolume(seen + mine, next, |d|);
  }

  /** The walk of a slot that has met `seen` comes to an entry above all of them. */
  ghost predicate Coming(d: Disk, f: Format, s: Shape, rank: map<Lba, int>, dir: Lba, i: nat, seen: set<Lba>,
          next: Lba) {
    next != 0 ==> InSlot(d, f, s, rank, dir, i, next) && Below(rank, seen, next)
  }

  lemma StartsClimbing(d: Disk, f: Format, s: Shape, rank: map<Lba, int>, dir: Lba, i: nat)
    requires InOrder(d, f, s, rank) && IsFolder(d, s, dir)
    ensures Coming(d, f, s, rank, dir, i, {}, At(d[dir], Slot(i))) && Climbing(d, f, s, rank, dir, i, [])
  {
    HeadIsEntry(d, f, s, rank, dir, i);
  }

  lemma ClimbsOn(d: Disk, f: Format, s: Shape, rank: map<Lba, int>, dir: Lba, i: nat, out: seq<Lba>, mine: set<Lba>,
          y: Lba)
    requires Climbing(d, f, s, rank, dir, i, out) && mine == SetOf(out)
    requires y != 0 && Coming(d, f, s, rank, dir, i, mine, y)
    ensures Climbing(d, f, s, rank, dir, i, out + [y])
  {
    hide InSlot;
    var more := out + [y];
    forall j, k | 0 <= j < k < |more|
      ensures more[j] in rank && more[k] in rank && rank[more[j]] < rank[more[k]]
    {
      assert more[j] == out[j] && out[j] in SetOf(out);
    }
  }

  lemma ComesOn(d: Disk, f: Format, s: Shape, rank: map<Lba, int>, dir: Lba, i: nat, mine: set<Lba>, y: Lba)
    requires InOrder(d, f, s, rank) && y != 0 && Coming(d, f, s, rank, dir, i, mine, y)
    ensures y < |d| && d[y].Header? && Coming(d, f, s, rank, dir, i, mine + {y}, d[y].chain)
  {
    NextIsEntry(d, f, s, rank, dir, i, y);
  }

  predicate AllHeaders(d: Disk, out: seq<Lba>) {
    forall x :: x in out ==> x < |d| && d[x].Header?
  }

  lemma HeadersBelow(d: Disk, out: seq<Lba>)
    requires AllHeaders(d, out)
    ensures AllBelow(SetOf(out), |d|)
  {}

  lemma OneHeaderMore(d: Disk, out: seq<Lba>, y: Lba)
    requires AllHeaders(d, out) && y < |d| && d[y].Header?
    ensures AllHeaders(d, out + [y])
  {}

  lemma NothingListed(d: Disk)
    ensures SetOf([]) == {} && AllHeaders(d, [])
  {}

  lemma StartsWalking(d: Disk, dir: Lba, i: nat)
    requires dir < |d| && IsDirectory(d[dir])
    ensures Walking(d, dir, i, {}, At(d[dir], Slot(i)))
  {}

  lemma WalksOn(d: Disk, dir: Lba, i: nat, seen: set<Lba>, y: Lba)
    requires Walking(d, dir, i, seen, y) && y < |d| && d[y].Header?
    ensures Walking(d, dir, i, seen + {y}, d[y].chain)
  {}

  lemma SlotIsListed(d: Disk, f: Format, s: Shape, rank: map<Lba, int>, dir: Lba, i: nat, out: seq<Lba>, mine: set<Lba>)
    requires InOrder(d, f, s, rank) && Climbing(d, f, s, rank, dir, i, out)
    requires mine == SetOf(out) && WalkedOut(d, dir, i, mine)
    ensures ListsSlot(d, f, s, rank, dir, i, out)
  {
    forall y: Lba
      ensures y in out <==> InSlot(d, f, s, rank, dir, i, y)
    {
      SlotWalkMeets(d, f, s, rank, dir, i, mine, y);
    }
  }

  lemma RankedEntries(d: Disk, f: Format, s: Shape, rank: map<Lba, int>, dir: Lba, i: nat, y: Lba)
    requires InOrder(d, f, s, rank)
    ensures InSlot(d, f, s, rank, dir, i, y) <==> EntryOf(d, s, dir, y) && SlotIn(f, d[y].name) == i
  {
    if IsEntry(s, y) { assert Placed(d, f, s, rank, y); }
  }

  lemma SlotListed(d: Disk, f: Format, s: Shape, rank: map<Lba, int>, dir: Lba, i: nat, out: seq<Lba>, more: seq<Lba>)
    requires InOrder(d, f, s, rank) && ListsSlots(d, f, s, dir, i, out) && ListsSlot(d, f, s, rank, dir, i, more)
    ensures ListsSlots(d, f, s, dir, i + 1, out + more)
  {
    forall y: Lba
      ensures y in out + more <==> EntryOf(d, s, dir, y) && SlotIn(f, d[y].name) < i + 1
    {
      RankedEntries(d, f, s, rank, dir, i, y);
    }
    forall j, k | 0 <= j < k < |out + more|
      ensures (out + more)[j] != (out + more)[k]
    {
      if j < |out| <= k {
        assert out[j] in out && more[k - |out|] in more;
        RankedEntries(d, f, s, rank, dir, i, more[k - |out|]);
      }
    }
  }

  lemma SlotsAreAll(d: Disk, f: Format, s: Shape, dir: Lba, out: seq<Lba>)
    requires f.slots > 0 && ListsSlots(d, f, s, dir, f.slots, out) && InWalkOrder(d, dir, out)
    ensures ListsFolder(d, s, dir, out)
  {}

  // ---- What keeps a volume's directories in order ---------------------------------

  /** Nothing a directory search looks at differs between the two blocks. */
  ghost predicate SameEntry(b: Block, c: Block) {
    && (b.Header? <==> c.Header?) && (b.Header? ==> b.name == c.name && b.parent == c.parent)
    && (IsDirectory(b) <==> IsDirectory(c))
    && (forall l: Link :: l.Slot? || l.Chain? ==> At(b, l) == At(c, l))
  }

  ghost predicate SameSlots(b: Block, c: Block) {
    forall l: Link :: l.Slot? ==> At(b, l) == At(c, l)
  }

  /** Whatever else changed, the entries and the slots that name them did not. */
  lemma NamedFramed(d: Disk, f: Format, s: Shape, rank: map<Lba, int>, e: Disk, t: Shape)
    requires Named(d, f, s, rank) && |e| == |d|
    requires forall y: Lba :: IsEntry(s, y) <==> IsEntry(t, y)
    requires forall y: Lba :: IsEntry(s, y) ==> y in t.up && t.up[y] == s.up[y] && t.Owns(s.up[y].from)
    requires forall x: Lba :: IsEntry(s, x) && x < |d| ==> SameEntry(d[x], e[x])
    requires forall x: Lba :: s.Owns(x) && t.Owns(x) && x < |d| ==> SameSlots(d[x], e[x])
    requires forall x: Lba :: t.Owns(x) && x < |d| && IsDirectory(e[x]) ==> |HashTable(e[x])| == f.slots
    ensures Named(e, f, t, rank)
  {
    forall y: Lba | IsEntry(t, y)
      ensures Placed(e, f, t, rank, y)
    {
      assert Placed(d, f, s, rank, y);
      EntryFramed(d, f, s, rank, e, t, y);
    }
    forall y: Lba, z: Lba | IsEntry(t, y) && IsEntry(t, z)
      ensures Distinguished(e, f, t, y, z)
    {
      assert Placed(d, f, s, rank, y) && Placed(d, f, s, rank, z);
      assert Distinguished(d, f, s, y, z);
    }
  }

  lemma EntryFramed(d: Disk, f: Format, s: Shape, rank: map<Lba, int>, e: Disk, t: Shape, y: Lba)
    requires IsEntry(s, y) && IsEntry(t, y) && Placed(d, f, s, rank, y) && |e| == |d|
    requires t.up[y] == s.up[y] && t.Owns(s.up[y].from)
    requires IsEntry(s, s.up[y].from) ==> IsEntry(t, s.up[y].from) && SameEntry(d[s.up[y].from], e[s.up[y].from])
    requires SameEntry(d[y], e[y]) && SameSlots(d[s.up[y].from], e[s.up[y].from])
    ensures Placed(e, f, t, rank, y)
  {
    hide At, SlotIn;
  }

  function RankedFirst(rank: map<Lba, int>, h: Lba, next: Lba): map<Lba, int> {
    rank[h := if next in rank then rank[next] - 1 else 0]
  }

  lemma LinkedFacts(d: Disk, f: Format, s: Shape, rank: map<Lba, int>, dir: Lba, i: nat, h: Lba)
    requires Grown(d, s) && Named(d, f, s, rank) && h in s.orphans && dir in s.Members()
    requires IsDirectory(d[dir]) && i < |HashTable(d[dir])| && d[h].chain == HashTable(d[dir])[i]
    ensures 0 < h < |d| && d[h].Header? && 0 < dir < |d| && h != dir && h !in s.up && h != s.root
    ensures d[h].chain != 0 ==> && IsEntry(s, d[h].chain) && d[h].chain in rank
                                && Placed(d, f, s, rank, d[h].chain) && s.up[d[h].chain] == Edge(dir, Slot(i))
  {
    var next := d[h].chain;
    assert At(d[dir], Slot(i)) == next && Recorded(d, s, dir) && Recorded(d, s, h);
    assert next != 0 ==> IsEntry(s, next) && Placed(d, f, s, rank, next);
  }

  lemma LinkedIsPlaced(d: Disk, f: Format, s: Shape, rank: map<Lba, int>, dir: Lba, i: nat, h: Lba, y: Lba)
    requires Grown(d, s) && Named(d, f, s, rank) && h in s.orphans && dir in s.Members()
    requires IsDirectory(d[dir]) && i < |HashTable(d[dir])| && d[h].chain == HashTable(d[dir])[i]
    requires d[h].parent == dir && i == SlotIn(f, d[h].name)
    requires IsEntry(Linked(s, dir, i, h, d[h].chain), y)
    ensures Placed(d[dir := WithSlot(d[dir], i, h)], f, Linked(s, dir, i, h, d[h].chain),
              RankedFirst(rank, h, d[h].chain), y)
  {
    LinkedFacts(d, f, s, rank, dir, i, h);
    var next := d[h].chain;
    var e := d[dir := WithSlot(d[dir], i, h)];
    if y == h {
      assert At(e[dir], Slot(i)) == h;
    } else if y == next {
      assert At(e[h], Chain) == next;
    } else {
      OtherIsPlaced(d, f, s, rank, dir, i, h, y);
    }
  }

  lemma OtherIsPlaced(d: Disk, f: Format, s: Shape, rank: map<Lba, int>, dir: Lba, i: nat, h: Lba, y: Lba)
    requires Grown(d, s) && Named(d, f, s, rank) && h in s.orphans && dir in s.Members()
    requires IsDirectory(d[dir]) && i < |HashTable(d[dir])| && d[h].chain == HashTable(d[dir])[i]
    requires d[h].parent == dir && i == SlotIn(f, d[h].name)
    requires IsEntry(s, y) && y != h && y != d[h].chain
    ensures Placed(d[dir := WithSlot(d[dir], i, h)], f, Linked(s, dir, i, h, d[h].chain),
              RankedFirst(rank, h, d[h].chain), y)
  {
    hide Grown, Named, SlotIn, WithSlot, At;
    LinkedFacts(d, f, s, rank, dir, i, h);
    PlacedNow(d, f, s, rank, y);
    TableAt(d[dir], i);
    SlotStays(d[dir], i, h);
    var x, l := s.up[y].from, s.up[y].link;
    OnlyThisSlot(d[dir], i, h, l);
    if l.Chain? { assert IsEntry(s, x) && x != h; }
  }

  lemma PlacedNow(d: Disk, f: Format, s: Shape, rank: map<Lba, int>, y: Lba)
    requires Named(d, f, s, rank) && IsEntry(s, y)
    ensures Placed(d, f, s, rank, y) && (s.up[y].link.Slot? || s.up[y].link.Chain?)
  {}

  lemma TableAt(b: Block, i: nat)
    requires IsDirectory(b) && i < |HashTable(b)|
    ensures At(b, Slot(i)) == HashTable(b)[i]
  {}

  /** Setting a slot changes nothing else a directory's header says. */
  lemma SlotStays(b: Block, i: nat, h: Lba)
    requires IsDirectory(b) && i < |HashTable(b)|
    ensures var c := WithSlot(b, i, h);
            && (c.Header? <==> b.Header?) && (b.Header? ==>
                c.name == b.name && c.parent == b.parent && c.kind == b.kind)
  {}

  lemma LinkedIsNamed(d: Disk, f: Format, s: Shape, rank: map<Lba, int>, dir: Lba, i: nat, h: Lba)
    requires Grown(d, s) && Named(d, f, s, rank) && h in s.orphans && dir in s.Members()
    requires IsDirectory(d[dir]) && i < |HashTable(d[dir])| && d[h].chain == HashTable(d[dir])[i]
    requires d[h].parent == dir && i == SlotIn(f, d[h].name)
    requires forall y :: !Matches(d, f, s, dir, d[h].name, y)
    ensures Named(d[dir := WithSlot(d[dir], i, h)], f, Linked(s, dir, i, h, d[h].chain),
              RankedFirst(rank, h, d[h].chain))
  {
    var e := d[dir := WithSlot(d[dir], i, h)];
    var t := Linked(s, dir, i, h, d[h].chain);
    forall y | IsEntry(t, y)
      ensures Placed(e, f, t, RankedFirst(rank, h, d[h].chain), y)
      ensures y == h || IsEntry(s, y)
    {
      LinkedIsPlaced(d, f, s, rank, dir, i, h, y);
      LinkedEntries(d, s, dir, i, h, y);
    }
    forall y, z | IsEntry(t, y) && IsEntry(t, z)
      ensures Distinguished(e, f, t, y, z)
    {
      LinkedIsDistinguished(d, f, s, rank, dir, i, h, y, z);
    }
  }

  lemma LinkedEntries(d: Disk, s: Shape, dir: Lba, i: nat, h: Lba, y: Lba)
    requires Grown(d, s) && h in s.orphans && dir in s.Members()
    requires IsDirectory(d[dir]) && i < |HashTable(d[dir])| && d[h].chain == HashTable(d[dir])[i]
    ensures IsEntry(Linked(s, dir, i, h, d[h].chain), y) <==> IsEntry(s, y) || y == h
  {
    assert At(d[dir], Slot(i)) == d[h].chain && Recorded(d, s, dir);
  }

  lemma LinkedIsDistinguished(d: Disk, f: Format, s: Shape, rank: map<Lba, int>, dir: Lba, i: nat, h: Lba, y: Lba,
          z: Lba)
    requires Grown(d, s) && Named(d, f, s, rank) && h in s.orphans && dir in s.Members()
    requires IsDirectory(d[dir]) && i < |HashTable(d[dir])| && d[h].parent == dir
    requires forall y :: !Matches(d, f, s, dir, d[h].name, y)
    requires (y == h || IsEntry(s, y)) && (z == h || IsEntry(s, z))
    requires y < |d| && d[y].Header? && z < |d| && d[z].Header?
    ensures Distinguished(d[dir := WithSlot(d[dir], i, h)], f, s, y, z)
  {
    if y != h { assert !Matches(d, f, s, dir, d[h].name, y) && IsEntry(s, y); }
    if z != h { assert !Matches(d, f, s, dir, d[h].name, z) && IsEntry(s, z); }
    if y == h && z != h { SameNameCommutes(d[h].name, d[z].name, f.intl); }
    if y != h && z != h { assert Distinguished(d, f, s, y, z); }
  }

  lemma SameNameCommutes(a: Bytes, b: Bytes, intl: bool)
    ensures SameName(a, b, intl) <==> SameName(b, a, intl)
  {}

  lemma OnlyThisSlot(b: Block, i: nat, h: Lba, l: Link)
    requires IsDirectory(b) && i < |HashTable(b)|
    ensures l != Slot(i) ==> At(WithSlot(b, i, h), l) == At(b, l)
  {}

  lemma SplicedIsPlaced(d: Disk, f: Format, s: Shape, rank: map<Lba, int>, x: Lba, l: Link, h: Lba, y: Lba)
    requires Grown(d, s) && Named(d, f, s, rank) && h in s.up && s.up[h] == Edge(x, l) && (l.Slot? || l.Chain?)
    requires x in s.Members() && At(d[x], l) == h != x && d[h].Header?
    requires l.Slot? ==> IsDirectory(d[x]) && l.i < |HashTable(d[x])|
    requires l.Chain? ==> d[x].Header?
    requires IsEntry(Spliced(s, h, d[h].chain), y)
    ensures IsEntry(s, y) && y != h && Placed(d[x := WithLink(d[x], l, d[h].chain)], f, Spliced(s, h, d[h].chain),
              rank, y)
  {
    var next := d[h].chain;
    SplicedEntries(d, s, x, l, h, y);
    assert Placed(d, f, s, rank, y) && Placed(d, f, s, rank, h);
    OtherLinksStay(d[x], l, next);
    if y == next {
      SpliceFacts(d, s, x, l, h);
      assert At(d[h], Chain) == next;
    } else {
      StillPlaced(d, f, s, rank, x, l, h, y);
    }
  }

  lemma LinkKeepsHeader(b: Block, l: Link, y: Lba)
    requires l.Slot? || l.Chain?
    requires l.Slot? ==> IsDirectory(b) && l.i < |HashTable(b)|
    requires l.Chain? ==> b.Header?
    ensures b.Header? <==> WithLink(b, l, y).Header?
    ensures b.Header? ==> WithLink(b, l, y).name == b.name && WithLink(b, l, y).parent == b.parent
  {}

  lemma ChainIs(b: Block)
    requires b.Header?
    ensures At(b, Chain) == b.chain
  {}

  lemma StillPlaced(d: Disk, f: Format, s: Shape, rank: map<Lba, int>, x: Lba, l: Link, h: Lba, y: Lba)
    requires Grown(d, s) && h in s.up && s.up[h] == Edge(x, l) && (l.Slot? || l.Chain?)
    requires x in s.Members() && x < |d| && h < |d| && At(d[x], l) == h != x && d[h].Header?
    requires l.Slot? ==> IsDirectory(d[x]) && l.i < |HashTable(d[x])|
    requires l.Chain? ==> d[x].Header?
    requires IsEntry(s, y) && Placed(d, f, s, rank, y) && y != h && y != d[h].chain
    ensures Placed(d[x := WithLink(d[x], l, d[h].chain)], f, Spliced(s, h, d[h].chain), rank, y)
  {
    hide At, Fits, WithLink, SlotIn, Spliced;
    OtherLinksStay(d[x], l, d[h].chain);
    LinkKeepsHeader(d[x], l, d[h].chain);
    ChainIs(d[h]);
    SpliceFacts(d, s, x, l, h);
    SplicedEdges(s, h, d[h].chain);
  }

  lemma SplicedIsNamed(d: Disk, f: Format, s: Shape, rank: map<Lba, int>, x: Lba, l: Link, h: Lba)
    requires Grown(d, s) && Named(d, f, s, rank) && h in s.up && s.up[h] == Edge(x, l) && (l.Slot? || l.Chain?)
    requires x in s.Members() && At(d[x], l) == h != x && d[h].Header?
    requires l.Slot? ==> IsDirectory(d[x]) && l.i < |HashTable(d[x])|
    requires l.Chain? ==> d[x].Header?
    ensures Named(d[x := WithLink(d[x], l, d[h].chain)], f, Spliced(s, h, d[h].chain), rank)
  {
    hide Grown, Placed, SlotIn, WithLink, Spliced, At, Distinguished, HashTable, IsDirectory;
    InsideHere(d, s, x, h);
    var e := d[x := WithLink(d[x], l, d[h].chain)];
    var t := Spliced(s, h, d[h].chain);
    forall y: Lba | IsEntry(t, y)
      ensures IsEntry(s, y) && Placed(e, f, t, rank, y)
    {
      SplicedIsPlaced(d, f, s, rank, x, l, h, y);
    }
    forall y: Lba, z: Lba | IsEntry(t, y) && IsEntry(t, z)
      ensures y < |e| && z < |e| && e[y].Header? && e[z].Header? && Distinguished(e, f, t, y, z)
    {
      SplicedApart(d, f, s, rank, x, l, h, y, z);
    }
    forall z: Lba | t.Owns(z) && z < |e| && IsDirectory(e[z])
      ensures |HashTable(e[z])| == f.slots
    {
      SplicedTable(d, f, s, rank, x, l, h, z);
    }
  }

  lemma InsideHere(d: Disk, s: Shape, x: Lba, h: Lba)
    requires Grown(d, s) && x in s.Members() && h in s.up
    ensures x < |d| && h < |d|
  {
    assert Recorded(d, s, x) && Recorded(d, s, h);
  }

  lemma SplicedApart(d: Disk, f: Format, s: Shape, rank: map<Lba, int>, x: Lba, l: Link, h: Lba, y: Lba, z: Lba)
    requires Grown(d, s) && Named(d, f, s, rank) && h in s.up && s.up[h] == Edge(x, l) && (l.Slot? || l.Chain?)
    requires x in s.Members() && At(d[x], l) == h != x && d[h].Header?
    requires l.Slot? ==> IsDirectory(d[x]) && l.i < |HashTable(d[x])|
    requires l.Chain? ==> d[x].Header?
    requires IsEntry(s, y) && IsEntry(s, z)
    ensures var e := d[x := WithLink(d[x], l, d[h].chain)];
            y < |e| && z < |e| && e[y].Header? && e[z].Header? && Distinguished(e, f, Spliced(s, h, d[h].chain), y, z)
  {
    assert Placed(d, f, s, rank, y) && Placed(d, f, s, rank, z) && Distinguished(d, f, s, y, z);
    LinkKeepsHeader(d[x], l, d[h].chain);
    hide Grown, Placed, WithLink, At;
  }

  lemma SplicedTable(d: Disk, f: Format, s: Shape, rank: map<Lba, int>, x: Lba, l: Link, h: Lba, z: Lba)
    requires Grown(d, s) && Named(d, f, s, rank) && h in s.up && s.up[h] == Edge(x, l) && (l.Slot? || l.Chain?)
    requires x in s.Members() && At(d[x], l) == h != x && d[h].Header?
    requires l.Slot? ==> IsDirectory(d[x]) && l.i < |HashTable(d[x])|
    requires l.Chain? ==> d[x].Header?
    requires Spliced(s, h, d[h].chain).Owns(z) && z < |d| && IsDirectory(d[x := WithLink(d[x], l, d[h].chain)][z])
    ensures |HashTable(d[x := WithLink(d[x], l, d[h].chain)][z])| == f.slots
  {
    SpliceFacts(d, s, x, l, h);
    hide Grown, Placed, SlotIn;
    assert s.Owns(z);
  }

  /** A splice takes exactly `h` out of the entries. */
  lemma SplicedEntries(d: Disk, s: Shape, x: Lba, l: Link, h: Lba, y: Lba)
    requires Grown(d, s) && h in s.up && s.up[h] == Edge(x, l) && (l.Slot? || l.Chain?)
    requires x in s.Members() && At(d[x], l) == h != x && d[h].Header?
    ensures IsEntry(Spliced(s, h, d[h].chain), y) <==> IsEntry(s, y) && y != h
  {
    SpliceFacts(d, s, x, l, h);
  }

  // ---- Directories form a tree ------------------------------------------------------

  /** Entry `x` names directory `y` as its parent. */
  predicate ClimbStep(d: Disk, s: Shape, x: Lba, y: Lba) {
    IsEntry(s, x) && x < |d| && d[x].Header? && d[x].parent == y && y < |d| && IsDirectory(d[y])
  }

  /** `path` climbs from `y` to the root through directories of the tree. */
  ghost predicate Climbs(d: Disk, s: Shape, y: Lba, path: seq<Lba>) {
    && |path| > 0 && path[0] == y && path[|path| - 1] == s.root
    && forall i :: 0 <= i < |path| - 1 ==> ClimbStep(d, s, path[i], path[i + 1])
  }

  ghost predicate CanClimb(d: Disk, s: Shape, y: Lba) {
    exists path :: Climbs(d, s, y, path)
  }

  ghost predicate Rooted(d: Disk, s: Shape) {
    forall y :: IsEntry(s, y) ==> CanClimb(d, s, y)
  }

  lemma ParentIsDirectory(d: Disk, s: Shape, y: Lba)
    requires Grown(d, s) && Rooted(d, s) && IsEntry(s, y)
    ensures y < |d| && d[y].Header? && d[y].parent in s.Members() && d[y].parent < |d| && IsDirectory(d[d[y].parent])
  {
    assert CanClimb(d, s, y);
    var path :| Climbs(d, s, y, path);
    assert y != s.root && |path| > 1;
    assert ClimbStep(d, s, path[0], path[0 + 1]);
    if |path| > 2 { assert ClimbStep(d, s, path[1], path[1 + 1]); }
  }

  /** The two blocks name the same parent, and the second is a directory if the first is. */
  predicate SameWayUp(b: Block, c: Block) {
    (b.Header? ==> c.Header? && c.parent == b.parent) && (IsDirectory(b) ==> IsDirectory(c))
  }

  /** A step survives where its entry does and directories stay directories. */
  lemma StepFramed(d: Disk, s: Shape, e: Disk, t: Shape, x: Lba, y: Lba)
    requires ClimbStep(d, s, x, y) && |e| == |d|
    requires IsEntry(t, x) && SameWayUp(d[x], e[x]) && IsDirectory(e[y])
    ensures ClimbStep(e, t, x, y)
  {}

  lemma ClimbFramed(d: Disk, s: Shape, e: Disk, t: Shape, y: Lba, path: seq<Lba>)
    requires Climbs(d, s, y, path) && |e| == |d| && s.root == t.root < |d|
    requires forall z: Lba :: z in path && IsEntry(s, z) ==> IsEntry(t, z)
    requires forall z: Lba :: z in path && IsEntry(s, z) && z < |d| ==> SameWayUp(d[z], e[z])
    requires IsDirectory(d[s.root]) ==> IsDirectory(e[s.root])
    ensures Climbs(e, t, y, path)
  {
    forall i | 0 <= i < |path| - 1
      ensures ClimbStep(e, t, path[i], path[i + 1])
    {
      assert path[i] in path && path[i + 1] in path;
      assert ClimbStep(d, s, path[i], path[i + 1]);
      if i + 1 < |path| - 1 { assert ClimbStep(d, s, path[i + 1], path[i + 1 + 1]); }
      StepFramed(d, s, e, t, path[i], path[i + 1]);
    }
  }

  lemma RootedFramed(d: Disk, s: Shape, e: Disk, t: Shape)
    requires Rooted(d, s) && |e| == |d| && s.root == t.root
    requires forall y :: IsEntry(s, y) <==> IsEntry(t, y)
    requires forall y: Lba :: IsEntry(s, y) && y < |d| ==> SameWayUp(d[y], e[y])
    requires s.root < |d| && (IsDirectory(d[s.root]) ==> IsDirectory(e[s.root]))
    ensures Rooted(e, t)
  {
    forall y | IsEntry(t, y)
      ensures CanClimb(e, t, y)
    {
      assert CanClimb(d, s, y);
      var path :| Climbs(d, s, y, path);
      ClimbFramed(d, s, e, t, y, path);
    }
  }

  lemma OneStepUp(d: Disk, s: Shape, h: Lba, up: seq<Lba>)
    requires |up| > 0 && Climbs(d, s, up[0], up) && ClimbStep(d, s, h, up[0])
    ensures Climbs(d, s, h, [h] + up)
  {
    var mine := [h] + up;
    forall i | 0 <= i < |mine| - 1
      ensures ClimbStep(d, s, mine[i], mine[i + 1])
    {
      if i > 0 { assert ClimbStep(d, s, up[i - 1], up[i - 1 + 1]); }
    }
  }

  /** The entry `h` moves to directory `dir`, which is not below it: everything still
      climbs to the root, what was below `h` by way of its new place. `s` is the shape
      before, `t` after, with `h` an entry of `t`; every other entry is as it was. */
  lemma MovedIsRooted(d: Disk, s: Shape, e: Disk, t: Shape, h: Lba, up: seq<Lba>)
    requires Rooted(d, s) && |e| == |d| && s.root == t.root < |d|
    requires forall y :: IsEntry(t, y) <==> IsEntry(s, y) || y == h
    requires forall y: Lba :: IsEntry(s, y) && y != h && y < |d| ==> SameWayUp(d[y], e[y])
    requires |up| > 0 && ClimbStep(e, t, h, up[0]) && IsDirectory(e[s.root])
    requires IsEntry(s, h) ==> IsDirectory(d[h]) ==> IsDirectory(e[h])
    requires Climbs(d, s, up[0], up) && h !in up
    ensures Rooted(e, t)
  {
    ClimbFramed(d, s, e, t, up[0], up);
    OneStepUp(e, t, h, up);
    forall y | IsEntry(t, y)
      ensures CanClimb(e, t, y)
    {
      if y == h {
        assert Climbs(e, t, h, [h] + up);
      } else {
        assert CanClimb(d, s, y);
        var path :| Climbs(d, s, y, path);
        if h in path {
          var k :| 0 <= k < |path| && path[k] == h;
          var first := FirstAt(path, h, k);
          if first < |path| - 1 { assert ClimbStep(d, s, path[first], path[first + 1]); }
          Rerouted(d, s, e, t, y, path, first, [h] + up);
        } else {
          ClimbFramed(d, s, e, t, y, path);
        }
      }
    }
  }

  lemma FirstAt(path: seq<Lba>, h: Lba, k: nat) returns (j: nat)
    requires k < |path| && path[k] == h
    ensures j < |path| && path[j] == h && h !in path[..j]
  {
    j := 0;
    while path[j] != h
      invariant j <= k && h !in path[..j]
      decreases k - j
    {
      j := j + 1;
    }
  }

  lemma Rerouted(d: Disk, s: Shape, e: Disk, t: Shape, y: Lba, path: seq<Lba>, j: nat, mine: seq<Lba>)
    requires Climbs(d, s, y, path) && |e| == |d| && s.root == t.root < |d|
    requires j < |path| && 0 < |mine| && path[j] == mine[0] && mine[0] !in path[..j]
    requires Climbs(e, t, mine[0], mine)
    requires forall z: Lba :: IsEntry(s, z) ==> IsEntry(t, z)
    requires forall z: Lba :: IsEntry(s, z) && z != mine[0] && z < |d| ==> SameWayUp(d[z], e[z])
    requires IsDirectory(d[s.root]) ==> IsDirectory(e[s.root])
    requires mine[0] < |d| && (IsDirectory(d[mine[0]]) ==> IsDirectory(e[mine[0]]))
    ensures Climbs(e, t, y, path[..j] + mine)
  {
    var path2 := path[..j] + mine;
    forall i | 0 <= i < |path2| - 1
      ensures ClimbStep(e, t, path2[i], path2[i + 1])
    {
      if i < j {
        assert path2[i] == path[i] && path[i] in path[..j] && path2[i + 1] == path[i + 1];
        assert ClimbStep(d, s, path[i], path[i + 1]);
        if i + 1 < j {
          assert path[i + 1] in path[..j] && ClimbStep(d, s, path[i + 1], path[i + 1 + 1]);
        }
        StepFramed(d, s, e, t, path[i], path[i + 1]);
      } else {
        assert path2[i] == mine[i - j] && path2[i + 1] == mine[i - j + 1];
        assert ClimbStep(e, t, mine[i - j], mine[i - j + 1]);
      }
    }
  }

  /** An entry without entries of its own leaves, and nothing else loses its way up. */
  lemma RemovedIsRooted(d: Disk, s: Shape, e: Disk, t: Shape, h: Lba)
    requires Rooted(d, s) && |e| == |d| && s.root == t.root < |d| && h != s.root
    requires forall y :: IsEntry(t, y) <==> IsEntry(s, y) && y != h
    requires forall y: Lba :: IsEntry(t, y) && y < |d| ==> SameWayUp(d[y], e[y])
    requires IsDirectory(d[s.root]) ==> IsDirectory(e[s.root])
    requires forall y: Lba :: IsEntry(s, y) && y < |d| && d[y].Header? ==> d[y].parent != h
    ensures Rooted(e, t)
  {
    forall y | IsEntry(t, y)
      ensures CanClimb(e, t, y)
    {
      assert CanClimb(d, s, y);
      var path :| Climbs(d, s, y, path);
      forall k | 0 <= k < |path|
        ensures path[k] != h
      {
        if k > 0 { assert ClimbStep(d, s, path[k - 1], path[k - 1 + 1]); }
      }
      ClimbFramed(d, s, e, t, y, path);
    }
  }
}
