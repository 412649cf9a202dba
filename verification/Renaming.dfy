/**
 Renaming an entry, within one directory or between two, and rewriting what a header
 says: the entry is out of every chain while its header changes.
 */
module Renaming {
  import opened Words
  import opened Disk
  import opened Allocation
  import opened Names
  import opened Forest
  import opened Directories
  import opened Dircache
  import opened Protocol
  import opened Reader
  import opened Steps
  import opened Mutation
  import opened Creation
  import opened Removal
  import opened Survival

  // ---- The way up -----------------------------------------------------------------------------

  lemma RootIsLast(d: Disk, s: Shape, path: seq<Lba>, i: nat)
    requires |path| > 0 && Climbs(d, s, path[0], path) && s.root !in s.up && i < |path| - 1
    ensures path[i] != s.root
  {
    assert ClimbStep(d, s, path[i], path[i + 1]);
  }

  lemma StepsAgree(d: Disk, s: Shape, path: seq<Lba>, i: nat, j: nat)
    requires |path| > 0 && Climbs(d, s, path[0], path) && i < j < |path| - 1 && path[i] == path[j]
    ensures path[i + 1] == path[j + 1]
  {
    assert ClimbStep(d, s, path[i], path[i + 1]) && ClimbStep(d, s, path[j], path[j + 1]);
  }

  /** A climb meets no directory twice. */
  lemma {:induction false} ClimbIsStraight(d: Disk, s: Shape, path: seq<Lba>, i: nat, j: nat)
    requires |path| > 0 && Climbs(d, s, path[0], path) && s.root !in s.up && i < j < |path|
    ensures path[i] != path[j]
    decreases |path| - j
  {
    if j == |path| - 1 {
      RootIsLast(d, s, path, i);
    } else {
      ClimbIsStraight(d, s, path, i + 1, j + 1);
      if path[i] == path[j] { StepsAgree(d, s, path, i, j); }
    }
  }

  lemma RootIsOutside(d: Disk, s: Shape)
    requires Grown(d, s)
    ensures s.root !in s.up
  {}

  /** The one way up from `dir` comes by `h`: `dir` is `h` or lies below it. */
  ghost predicate Beneath(d: Disk, s: Shape, dir: Lba, h: Lba) {
    exists up :: Climbs(d, s, dir, up) && h in up
  }

  lemma {:induction false} SameClimb(d: Disk, s: Shape, a: seq<Lba>, b: seq<Lba>, i: nat)
    requires |a| > 0 && |b| > 0 && a[0] == b[0] && Climbs(d, s, a[0], a) && Climbs(d, s, b[0], b) && s.root !in s.up
              && i < |a|
    ensures i < |b| && a[i] == b[i]
    decreases i
  {
    if i > 0 {
      SameClimb(d, s, a, b, i - 1);
      RootIsLast(d, s, a, i - 1);
      assert ClimbStep(d, s, a[i - 1], a[i - 1 + 1]) && ClimbStep(d, s, b[i - 1], b[i - 1 + 1]);
    }
  }

  lemma OnEveryClimb(d: Disk, s: Shape, dir: Lba, up: seq<Lba>, h: Lba)
    requires Grown(d, s) && Climbs(d, s, dir, up)
    ensures Beneath(d, s, dir, h) <==> h in up
  {
    RootIsOutside(d, s);
    hide Grown;
    if Beneath(d, s, dir, h) {
      var a :| Climbs(d, s, dir, a) && h in a;
      var i :| 0 <= i < |a| && a[i] == h;
      SameClimb(d, s, a, up, i);
    }
  }

  /** Walk the parent pointers up from `dir`: refused exactly when the walk meets `h`. */
  method RefuseOwnSubtree(m: Mutator, h: Lba, dir: Lba, ghost up: seq<Lba>) returns (r: Result<(), MutateError>)
    requires m.Valid() && |up| > 0 && up[0] == dir && Climbs(m.vol.src.blocks, m.shape, dir, up)
    ensures if h in up then r == Err(IntoOwnSubtree(h, dir)) else r == Ok(())
  {
    hide Mutator.Ready, Orderly, Mutation.Kept, Rooted;
    m.RootFacts();
    var here := dir;
    var visited: set<Lba> := {};
    ghost var i := 0;
    while true
      invariant 0 <= i < |up| && here == up[i] && h !in up[..i] && visited == SetOf(up[..i])
      decreases |up| - i
    {
      if here == h {
        return Err(IntoOwnSubtree(h, dir));
      }
      AtTheTop(m.vol.src.blocks, m.shape, up, i);
      if here == m.vol.root || here == 0 {
        return Ok(());
      }
      NotSeenYet(m.vol.src.blocks, m.shape, up, i);
      if here in visited || |visited| >= |m.vol.src.blocks| {
        return Err(Read(ChainCycle(here)));
      }
      assert up[..i + 1] == up[..i] + [up[i]];
      SetOfMore(up[..i], up[i]);
      visited := visited + {here};
      var entry := m.vol.EntryAt(here);
      match entry {
        case Err(e) => return Err(Read(e));
        case Ok(b) => here := b.parent;
      }
      i := i + 1;
    }
    r := Ok(());
  }

  lemma AtTheTop(d: Disk, s: Shape, up: seq<Lba>, i: nat)
    requires Grown(d, s) && |up| > 0 && Climbs(d, s, up[0], up) && i < |up|
    ensures up[i] == s.root <==> i == |up| - 1
    ensures up[i] != 0 && up[i] < |d| && (i < |up| - 1 ==> d[up[i]].Header? && d[up[i]].parent == up[i + 1])
  {
    assert Recorded(d, s, s.root);
    if i < |up| - 1 {
      assert ClimbStep(d, s, up[i], up[i + 1]);
      OwnedInside(d, s, up[i]);
    }
  }

  lemma NotSeenYet(d: Disk, s: Shape, up: seq<Lba>, i: nat)
    requires Grown(d, s) && |up| > 0 && Climbs(d, s, up[0], up) && i < |up|
    ensures up[i] !in SetOf(up[..i]) && |SetOf(up[..i])| < |d|
  {
    hide Grown, Climbs;
    forall j | 0 <= j < i
      ensures up[j] != up[i] && up[j] < |d|
    {
      RootIsOutside(d, s);
      ClimbIsStraight(d, s, up, j, i);
      AtTheTop(d, s, up, j);
    }
    AtTheTop(d, s, up, i);
    FitsInVolume(SetOf(up[..i]), up[i], |d|);
  }

  /** What is no directory is on nobody's way up. */
  lemma OnlyDirectoriesOnTheWay(d: Disk, s: Shape, up: seq<Lba>, h: Lba)
    requires |up| > 0 && Climbs(d, s, up[0], up) && up[0] < |d| && IsDirectory(d[up[0]]) && h < |d|
              && !IsDirectory(d[h])
    ensures h !in up
  {
    forall k | 0 <= k < |up|
      ensures up[k] != h
    {
      if k > 0 { assert ClimbStep(d, s, up[k - 1], up[k - 1 + 1]); }
    }
  }

  /** The tree after a move, told by what the directories say: everything climbs to the root. */
  lemma MovedByTree(d: Disk, f: Format, s: Shape, rank: map<Lba, int>, e: Disk, t: Shape, rank2: map<Lba, int>, h: Lba,
          dir: Lba, up: seq<Lba>)
    requires Grown(d, s) && Named(d, f, s, rank) && Rooted(d, s) && Grown(e, t) && Named(e, f, t, rank2)
              && s.root == t.root && |e| == |d|
    requires h in Tree(d, s) && |up| > 0 && up[0] == dir && Climbs(d, s, dir, up) && h !in up && IsFolder(d, s, dir)
    requires Tree(e, t).Keys == Tree(d, s).Keys
    requires forall y :: y in Tree(d, s) && y != h ==> Tree(e, t)[y] == Tree(d, s)[y]
    requires Tree(e, t)[h].dir == dir && Tree(e, t)[h].kind == Tree(d, s)[h].kind
    ensures Rooted(e, t)
  {
    hide At, Fits, SlotIn, Climbs, Recorded;
    TreeIsEntries(d, f, s, rank);
    TreeIsEntries(e, f, t, rank2);
    OwnedInside(d, s, s.root);
    FolderPersists(d, s, e, t, dir);
    RootIsDirectory(e, t);
    hide Grown, Named, Rooted, Tree, IsDirectory;
    forall y: Lba | IsEntry(s, y) && y != h && y < |d|
      ensures SameWayUp(d[y], e[y])
    {
      SameFactsSameWayUp(d, s, e, t, y);
    }
    MovedKind(d, s, e, t, h, dir);
    MovedIsRooted(d, s, e, t, h, up);
  }

  lemma TreeIsEntries(d: Disk, f: Format, s: Shape, rank: map<Lba, int>)
    requires Grown(d, s) && Named(d, f, s, rank)
    ensures forall y: Lba :: IsEntry(s, y) <==> y in Tree(d, s)
  {
    forall y: Lba
      ensures IsEntry(s, y) <==> y in Tree(d, s)
    {
      if IsEntry(s, y) { EntryIsHeader(d, f, s, rank, y); }
    }
  }

  lemma RootIsDirectory(d: Disk, s: Shape)
    requires Grown(d, s)
    ensures s.root < |d| && IsDirectory(d[s.root])
  {}

  lemma SameFactsSameWayUp(d: Disk, s: Shape, e: Disk, t: Shape, y: Lba)
    requires y in Tree(d, s) && y in Tree(e, t) && Tree(d, s)[y] == Tree(e, t)[y]
    ensures y < |d| && y < |e| && SameWayUp(d[y], e[y])
  {}

  lemma MovedKind(d: Disk, s: Shape, e: Disk, t: Shape, h: Lba, dir: Lba)
    requires h in Tree(d, s) && h in Tree(e, t) && Tree(e, t)[h].dir == dir && Tree(e, t)[h].kind == Tree(d, s)[h].kind
    requires IsFolder(e, t, dir)
    ensures h < |d| && h < |e| && ClimbStep(e, t, h, dir) && (IsDirectory(d[h]) ==> IsDirectory(e[h]))
  {}

  // ---- Rename ------------------------------------------------------------------------------------

  /** The new name is another entry's. */
  ghost predicate Taken(tree: map<Lba, Fact>, intl: bool, dir: Lba, name: Bytes, newDir: Lba, newName: Bytes) {
    exists h, k :: Filed(tree, intl, dir, name, h) && Filed(tree, intl, newDir, newName, k) && h != k
  }

  /** Entry `h` can go there: the name is legal and no other entry's, and no directory goes
      below itself. */
  ghost predicate MayGoTo(f: Format, d: Disk, s: Shape, h: Lba, newDir: Lba, newName: Bytes)
    requires h in Tree(d, s)
  {
    && NameOk(newName, MaxName(f)) && IsFolder(d, s, newDir) && Absent(Tree(d, s) - {h}, f.intl, newDir, newName)
    && (Tree(d, s)[h].kind.Directory? ==> !Beneath(d, s, newDir, h))
  }

  /** Everything a rename must settle before it writes: the entry is there, the new name is
      legal and free in a directory that is there, and no directory goes below itself. */
  method MayRename(m: Mutator, dir: Lba, name: Bytes, newDir: Lba, newName: Bytes)
          returns (r: Result<Lba, MutateError>, ghost up: seq<Lba>)
    requires m.Valid() && m.Handle(dir) && m.Handle(newDir)
    ensures r.Ok? ==> Filed(m.Entries(), m.vol.f.intl, dir, name, r.value) && IsFolder(m.vol.src.blocks, m.shape, dir)
    ensures r.Ok? ==> MayGoTo(m.vol.f, m.vol.src.blocks, m.shape, r.value, newDir, newName)
    ensures r.Ok? ==> |name| <= MaxName(m.vol.f)
    ensures r.Err? ==> |name| > MaxName(m.vol.f) || forall h :: Filed(m.Entries(), m.vol.f.intl, dir, name, h) ==>
              !MayGoTo(m.vol.f, m.vol.src.blocks, m.shape, h, newDir, newName)
    ensures r.Ok? ==> |up| > 0 && up[0] == newDir && Climbs(m.vol.src.blocks, m.shape, newDir, up) && r.value !in up
    ensures |name| <= MaxName(m.vol.f) && NameOk(newName, MaxName(m.vol.f))
              && Taken(m.Entries(), m.vol.f.intl, dir, name, newDir, newName) ==>
              r == Err(DuplicateName(newDir, newName))
  {
    hide Mutator.Ready, Orderly, Mutation.Kept, Rooted, Tree, Absent, SameName, IsFolder, Grown, Named, Beneath, Climbs;
    up := [];
    var entry := m.ExpectEntry(dir, name);
    MatchesInTree(m.vol.src.blocks, m.vol.f, m.shape, dir, name);
    NobodyFiled(m, dir, name);
    if entry.Err? {
      return Err(entry.error), up;
    }
    var h := entry.value;
    OnlyOneFiled(m, dir, name, h);
    var named := CheckName(newName, MaxName(m.vol.f));
    if named.Err? {
      return Err(named.error), up;
    }
    NobodyFiled(m, newDir, newName);
    var folder := m.ExpectDirectory(newDir);
    if folder.Err? {
      return Err(folder.error), up;
    }
    m.InOrderNow();
    MatchesInTree(m.vol.src.blocks, m.vol.f, m.shape, newDir, newName);
    var clash := m.vol.Lookup(newDir, newName, m.shape, m.rank);
    match clash {
      case Err(e) => return Err(Read(e)), up;
      case Ok(None) =>
        NobodyFiled(m, newDir, newName);
      case Ok(Some(k)) =>
        OnlyOneFiled(m, newDir, newName, k);
        if k != h {
          NotAbsent(m.Entries(), m.vol.f.intl, newDir, newName, h, k);
          return Err(DuplicateName(newDir, newName)), up;
        }
    }
    AbsentOnceGone(m.Entries(), m.vol.f.intl, newDir, newName, h);
    up := WayUp(m, newDir, h);
    OnEveryClimb(m.vol.src.blocks, m.shape, newDir, up, h);
    EntryBlock(m, h);
    if m.vol.src.blocks[h].kind.Directory? {
      var ok := RefuseOwnSubtree(m, h, newDir, up);
      if ok.Err? {
        return Err(ok.error), up;
      }
    }
    r := Ok(h);
  }

  lemma NotAbsent(tree: map<Lba, Fact>, intl: bool, dir: Lba, name: Bytes, h: Lba, k: Lba)
    requires Filed(tree, intl, dir, name, k) && k != h
    ensures !Absent(tree - {h}, intl, dir, name)
  {
    hide SameName;
    assert k in tree - {h};
  }

  lemma AbsentOnceGone(tree: map<Lba, Fact>, intl: bool, dir: Lba, name: Bytes, h: Lba)
    requires forall k :: Filed(tree, intl, dir, name, k) ==> k == h
    ensures Absent(tree - {h}, intl, dir, name)
  {
    hide SameName;
    forall y | y in tree - {h} && (tree - {h})[y].dir == dir
      ensures !SameName((tree - {h})[y].name, name, intl)
    {
      assert !Filed(tree, intl, dir, name, y);
    }
  }

  /** A folder has a way up, and what is no directory is not on it. */
  lemma WayUp(m: Mutator, dir: Lba, h: Lba) returns (up: seq<Lba>)
    requires m.Valid() && IsFolder(m.vol.src.blocks, m.shape, dir) && h in m.Entries()
    ensures |up| > 0 && up[0] == dir && Climbs(m.vol.src.blocks, m.shape, dir, up)
    ensures !m.Entries()[h].kind.Directory? ==> h !in up
  {
    hide Mutator.Ready, Mutation.Kept;
    FolderClimbs(m.vol.src.blocks, m.vol.f, m.shape, m.rank, dir);
    up :| Climbs(m.vol.src.blocks, m.shape, dir, up);
    if !m.Entries()[h].kind.Directory? {
      OnlyDirectoriesOnTheWay(m.vol.src.blocks, m.shape, up, h);
    }
  }

  /** The comment's block, where it has one, says what the comment is. */
  predicate NoteSays(d: Disk, note: Lba, comment: Bytes) {
    note != 0 ==> note < |d| && d[note].Comment? && d[note].text == comment
  }

  /** Blocks a header's comment takes. */
  function NoteCount(own: bool): nat {
    if own then 1 else 0
  }

  /** Of the free blocks `was`, `now` are left once the comment whose block was `had` has
      block `has`: a new one drawn, or the old one not yet given back. */
  ghost predicate NoteDrawn(was: set<Lba>, now: set<Lba>, had: Lba, has: Lba) {
    if has != 0 && had == 0 then has in was && now == was - {has} else now == was
  }

  /** There is a block for the comment, if the new name leaves it no room in the header. */
  ghost predicate NoteFits(f: Format, d: Disk, free: set<Lba>, h: Lba, name: Bytes, comment: Bytes) {
    h < |d| && d[h].Header? && d[h].note == 0 && NeedsCommentBlock(f, name, comment) ==> free != {}
  }

  /** Where the comment has to live under the new name: the block it may need is written
      before anything points to it. */
  method SettleNote(m: Mutator, h: Lba, newName: Bytes, comment: Bytes) returns (r: Result<Lba, MutateError>)
    requires m.Valid() && h in m.Entries() && comment == m.Entries()[h].comment
    modifies m.vol.src, m.alloc
    ensures m.Valid() && m.Entries() == old(m.Entries())
              && Carries(old(m.vol.src.blocks), m.shape, m.vol.src.blocks, m.shape)
    ensures h < |m.vol.src.blocks| == |old(m.vol.src.blocks)| && m.vol.src.blocks[h] == old(m.vol.src.blocks)[h]
              && m.vol.src.blocks[h].Header?
    ensures r.Ok? <==> old(NoteFits(m.vol.f, m.vol.src.blocks, m.alloc.Free(), h, newName, comment))
    ensures r.Err? ==> m.alloc.Free() == old(m.alloc.Free())
    ensures r.Ok? ==> r.value == 0 || r.value == m.vol.src.blocks[h].note || m.vol.src.blocks[h].note == 0
    ensures r.Ok? ==> m.NoteReady(h, r.value) && (r.value != 0 <==> NeedsCommentBlock(m.vol.f, newName, comment))
    ensures r.Ok? ==>
              NoteSays(m.vol.src.blocks, r.value, comment)
              && NoteDrawn(old(m.alloc.Free()), m.alloc.Free(), m.vol.src.blocks[h].note, r.value)
  {
    hide Mutator.Ready, Orderly, Mutation.Kept, Rooted, Tree, Mutator.Mine, Carries;
    CarriesItself(m.vol.src.blocks, m.shape);
    EntryBlock(m, h);
    EntryComment(m, h);
    var note := m.vol.src.blocks[h].note;
    if !NeedsCommentBlock(m.vol.f, newName, comment) {
      return Ok(0);
    }
    if note != 0 {
      return Ok(note);
    }
    ghost var d := m.vol.src.blocks;
    var cb := m.TakeBlock(h);
    if cb.Err? {
      return Err(cb.error);
    }
    ghost var e := m.vol.src.blocks;
    m.MineFacts(cb.value);
    m.PutLoose(cb.value, Comment(cb.value, h, comment));
    CarriesOn(d, m.shape, e, m.shape, m.vol.src.blocks, m.shape);
    EntryBlock(m, h);
    r := Ok(cb.value);
  }

  lemma EntryComment(m: Mutator, h: Lba)
    requires m.Steady() && h in m.Entries()
    ensures h < |m.vol.src.blocks| && m.vol.src.blocks[h].Header?
              && m.Entries()[h] == FactOf(m.vol.src.blocks, m.vol.src.blocks[h])
    ensures var note := m.vol.src.blocks[h].note;
            note != 0 ==>
              note < |m.vol.src.blocks| && m.vol.src.blocks[note].Comment?
              && m.vol.src.blocks[note].text == m.Entries()[h].comment
  {
    hide Mutator.Ready, Mutation.Kept, Named;
    if m.vol.src.blocks[h].note != 0 { NoteIsOwned(m.vol.src.blocks, m.shape, h); }
  }

  /** Header `b` filed in `dir` as `name`, in front of `head`. */
  function Moved(b: Block, dir: Lba, name: Bytes, comment: Bytes, note: Lba, head: Lba): Block
    requires b.Header?
  {
    b.(name := name, parent := dir, chain := head, comment := if note != 0 then [] else comment, note := note)
  }

  /** A name no entry of a directory of the tree has. */
  ghost predicate FreeName(m: Mutator, dir: Lba, name: Bytes)
    reads m`shape, m.vol.src
  {
    IsFolder(m.vol.src.blocks, m.shape, dir) && Absent(m.Entries(), m.vol.f.intl, dir, name)
  }

  /** The header under its new name, then the one write that files it again. The head of
      the new slot is read here, after the entry left its old chain, which may have changed
      it. */
  method Rehook(m: Mutator, h: Lba, newDir: Lba, newName: Bytes, comment: Bytes, note: Lba) returns (ghost mid: Disk)
    requires m.Steady() && h in m.shape.orphans && h in m.live && h != newDir && FreeName(m, newDir, newName)
    requires h < |m.vol.src.blocks| && m.vol.src.blocks[h].Header? && m.NoteReady(h, note)
              && NoteSays(m.vol.src.blocks, note, comment)
    modifies m`live, m`shape, m`rank, m`views, m.vol.src
    ensures m.Steady() && Carries(old(m.vol.src.blocks), old(m.shape), m.vol.src.blocks, m.shape)
    ensures h < |old(m.vol.src.blocks)| && old(m.vol.src.blocks)[h].Header?
    ensures m.Entries() == old(m.Entries())[h := NewFact(old(m.vol.src.blocks)[h], newDir, newName, comment)]
    ensures m.DroppedIsSpent(old(m.vol.src.blocks)[h].note, note)
    ensures m.vol.src.trail == old(m.vol.src.trail) + [mid, m.vol.src.blocks]
              && Shows(mid, m.vol.f, m.vol.root, old(m.Entries()))
  {
    hide Mutator.Ready, Orderly, Mutation.Kept, Rooted, Tree, Mutator.Mine, Carries, Grown, Named, Absent, SameName,
      WithSlot, Linked, Renoted,
      Mutator.Spent, FactOf, SlotIn, Matches, Shows;
    ghost var d, s := m.vol.src.blocks, m.shape;
    m.InOrderNow();
    m.FolderFacts(newDir);
    m.RootFacts();
    SlotBound(m.vol.f, newName);
    var slot := SlotIn(m.vol.f, newName);
    var head := HashTable(m.vol.src.blocks[newDir])[slot];
    var hdr := Moved(m.vol.src.blocks[h], newDir, newName, comment, note, head);
    m.HeadIsLive(newDir, slot);
    HeadIsNoNote(m, newDir, slot, h);
    MovedFact(d, h, hdr, newDir, newName, comment, note, head);
    MovedIsRefiled(m.vol.src.blocks[h], newDir, newName, comment, note, head);
    m.Refile(h, hdr);
    ghost var e, t := m.vol.src.blocks, m.shape;
    mid := e;
    ShowsNow(m);
    m.RootFacts();
    RenotedRoot(s, h, d[h].note, note);
    FolderPersists(d, s, e, t, newDir);
    MatchesInTree(e, m.vol.f, t, newDir, newName);
    m.EnterName(newDir, slot, h);
    CarriesOn(d, s, e, t, m.vol.src.blocks, m.shape);
  }

  function NewFact(b: Block, dir: Lba, name: Bytes, comment: Bytes): Fact
    requires b.Header?
  {
    Fact(dir, name, b.kind, b.meta.protection, b.meta.owner, comment, b.realEntry, UpToNul(b.path))
  }

  lemma MovedFact(d: Disk, h: Lba, hdr: Block, dir: Lba, name: Bytes, comment: Bytes, note: Lba, head: Lba)
    requires h < |d| && d[h].Header? && hdr == Moved(d[h], dir, name, comment, note, head) && NoteSays(d, note, comment)
    ensures FactOf(d[h := hdr], hdr) == NewFact(d[h], dir, name, comment)
  {}

  lemma MovedIsRefiled(b: Block, dir: Lba, name: Bytes, comment: Bytes, note: Lba, head: Lba)
    requires b.Header?
    ensures Refiled(b, Moved(b, dir, name, comment, note, head))
  {}

  lemma RenotedRoot(s: Shape, h: Lba, was: Lba, now: Lba)
    ensures Renoted(s, h, was, now).root == s.root && Renoted(s, h, was, now).orphans == s.orphans
  {}

  /** What heads a slot is an entry, not a comment. */
  lemma HeadIsNoNote(m: Mutator, dir: Lba, slot: nat, h: Lba)
    requires m.Steady() && IsFolder(m.vol.src.blocks, m.shape, dir) && slot < |HashTable(m.vol.src.blocks[dir])|
    requires m.shape.Owns(h) && h < |m.vol.src.blocks| && m.vol.src.blocks[h].Header?
    ensures m.vol.src.blocks[h].note != 0 ==> HashTable(m.vol.src.blocks[dir])[slot] != m.vol.src.blocks[h].note
  {
    hide Mutator.Ready, Mutation.Kept, Named;
    assert Recorded(m.vol.src.blocks, m.shape, dir);
    assert At(m.vol.src.blocks[dir], Slot(slot)) == HashTable(m.vol.src.blocks[dir])[slot];
    if m.vol.src.blocks[h].note != 0 { NoteIsOwned(m.vol.src.blocks, m.shape, h); }
  }

  lemma NoteUntouched(d: Disk, s: Shape, h: Lba, note: Lba, comment: Bytes, x: Lba, l: Link, e: Disk)
    requires NoteSays(d, note, comment) && CutAt(d, s, h, x, l) && e == d[x := WithLink(d[x], l, d[h].chain)]
    ensures NoteSays(e, note, comment) && e[h] == d[h]
    ensures note < |d| && d[note].Comment? ==> e[note] == d[note]
  {}

  /** Out of the old chain: the entry is an orphan for the length of one header write. */
  method Unhook(m: Mutator, dir: Lba, h: Lba, newDir: Lba, newName: Bytes, comment: Bytes, note: Lba)
    requires m.Valid() && IsFolder(m.vol.src.blocks, m.shape, dir) && EntryOf(m.vol.src.blocks, m.shape, dir, h)
    requires IsFolder(m.vol.src.blocks, m.shape, newDir) && Absent(m.Entries() - {h}, m.vol.f.intl, newDir, newName)
              && h != newDir
    requires m.NoteReady(h, note) && h in m.Entries() && NoteSays(m.vol.src.blocks, note, comment)
    modifies m`shape, m`rank, m`views, m.vol.src
    ensures m.Steady() && h in m.shape.orphans && h in m.live && FreeName(m, newDir, newName)
    ensures h < |m.vol.src.blocks| == |old(m.vol.src.blocks)| && m.vol.src.blocks[h] == old(m.vol.src.blocks)[h]
              && m.vol.src.blocks[h].Header?
    ensures m.NoteReady(h, note) && NoteSays(m.vol.src.blocks, note, comment)
    ensures m.Entries() == old(m.Entries()) - {h} && Carries(old(m.vol.src.blocks), old(m.shape), m.vol.src.blocks,
              m.shape)
    ensures m.vol.src.trail == old(m.vol.src.trail) + [m.vol.src.blocks]
  {
    hide Mutator.Ready, Orderly, Mutation.Kept, Rooted, Tree, Mutator.Mine, Carries, Grown, Named, Absent, SameName,
      Spliced, WithLink,
      At, Childless, NoteSays, IsFolder, CutAt;
    ghost var d, s := m.vol.src.blocks, m.shape;
    m.InOrderNow();
    m.RootFacts();
    m.EntryIsLive(h);
    ghost var x, l;
    var done;
    done, x, l := SpliceFromHashChain(m, dir, h);
    NoteUntouched(d, s, h, note, comment, x, l, m.vol.src.blocks);
    SplicedOrphans(s, h, d[h].chain);
    m.RootFacts();
    FolderPersists(d, s, m.vol.src.blocks, m.shape, newDir);
  }

  /** The writes of a move: out of the old chain, then under the new name into the new one. */
  method MoveEntry(m: Mutator, dir: Lba, h: Lba, newDir: Lba, newName: Bytes, comment: Bytes, note: Lba,
          ghost up: seq<Lba>)
    returns (ghost out: Disk, ghost mid: Disk)
    requires m.Valid() && IsFolder(m.vol.src.blocks, m.shape, dir) && EntryOf(m.vol.src.blocks, m.shape, dir, h)
    requires IsFolder(m.vol.src.blocks, m.shape, newDir) && Absent(m.Entries() - {h}, m.vol.f.intl, newDir, newName)
    requires |up| > 0 && up[0] == newDir && Climbs(m.vol.src.blocks, m.shape, newDir, up) && h !in up
    requires m.NoteReady(h, note) && h in m.Entries() && comment == m.Entries()[h].comment
              && NoteSays(m.vol.src.blocks, note, comment)
    modifies m`live, m`shape, m`rank, m`views, m.vol.src
    ensures m.vol.src.trail == old(m.vol.src.trail) + [out, mid, m.vol.src.blocks]
    ensures Shows(out, m.vol.f, m.vol.root, old(m.Entries()) - {h})
              && Shows(mid, m.vol.f, m.vol.root, old(m.Entries()) - {h})
    ensures m.Valid() && m.Entries() == old(m.Entries())[h := old(m.Entries())[h].(dir := newDir, name := newName)]
    ensures Carries(old(m.vol.src.blocks), old(m.shape), m.vol.src.blocks, m.shape)
    ensures h < |old(m.vol.src.blocks)| && old(m.vol.src.blocks)[h].Header?
              && m.DroppedIsSpent(old(m.vol.src.blocks)[h].note, note)
  {
    hide Mutator.Steady, Rooted, Tree, Mutator.Mine, Carries, Climbs, Grown, Named, Absent, SameName,
      Mutator.Spent, Mutator.DroppedIsSpent, Mutator.NoteReady, FactOf, NewFact, NoteSays, IsFolder, FreeName, Shows;
    ghost var d, s, rank, tree := m.vol.src.blocks, m.shape, m.rank, m.Entries();
    m.InOrderNow();
    m.RootFacts();
    EntryComment(m, h);
    NewFactIs(d, d[h], newDir, newName);
    assert newDir in up;
    Unhook(m, dir, h, newDir, newName, comment, note);
    ghost var e, t := m.vol.src.blocks, m.shape;
    out := e;
    ShowsNow(m);
    mid := Rehook(m, h, newDir, newName, comment, note);
    CarriesOn(d, s, e, t, m.vol.src.blocks, m.shape);
    m.InOrderNow();
    m.RootFacts();
    MovedByTree(d, m.vol.f, s, rank, m.vol.src.blocks, m.shape, m.rank, h, newDir, up);
  }

  lemma NewFactIs(d: Disk, b: Block, dir: Lba, name: Bytes)
    requires b.Header?
    ensures NewFact(b, dir, name, FactOf(d, b).comment) == FactOf(d, b).(dir := dir, name := name)
    ensures FactOf(d, b).(dir := dir, name := name).kind == FactOf(d, b).kind
  {}

  /** Entry `x` is filed in `dir`. */
  predicate Inside(tree: map<Lba, Fact>, x: Lba, dir: Lba) {
    x in tree && tree[x].dir == dir
  }

  /** The cache of `dir` mirrors it, unless stamping directory `x` put its record there out of date. */
  ghost predicate MirrorsBut(m: Mutator, dir: Lba, x: Lba)
    reads m`shape, m.vol.src
  {
    m.vol.f.dircache && (m.clock.None? || !Inside(m.Entries(), x, dir)) ==>
        Mirrors(m.vol.src.blocks, m.vol.f, m.shape, dir)
  }

  /** Stamping a directory leaves its record in another directory's cache behind, by exactly
      its date. */
  lemma DatedIsStale(d: Disk, f: Format, s: Shape, dir: Lba, x: Lba, now: Date)
    requires Grown(d, s) && IsFolder(d, s, dir) && Mirrors(d, f, s, dir) && EntryOf(d, s, dir, x) && x != dir
    requires Tree(d[x := Dated(d[x], now)], s) == Tree(d, s)
    ensures Mirrors(d[x := Dated(d[x], now)], f, s, dir) <==> Narrow(now) == Narrow(d[x].meta.date)
  {
    assert x < |d| && d[x].Header?;
    hide Grown, Tree, MirrorsIn, Dated, EntryOf;
    var entries, blocks :| MirrorsIn(d, f, s, dir, entries, blocks);
    DatedMirror(d, f, s, dir, x, now, entries, blocks);
    if Mirrors(d[x := Dated(d[x], now)], f, s, dir) {
      var entries2, blocks2 :| MirrorsIn(d[x := Dated(d[x], now)], f, s, dir, entries2, blocks2);
      OneMirror(d[x := Dated(d[x], now)], f, s, dir, entries, blocks, entries2, blocks2);
    }
  }

  /** There is one way a cache can mirror its directory. */
  lemma OneMirror(d: Disk, f: Format, s: Shape, dir: Lba, entries: seq<Lba>, blocks: seq<Lba>, entries2: seq<Lba>,
          blocks2: seq<Lba>)
    requires ListsFolder(d, s, dir, entries) && IsCacheOf(d, dir, blocks) && MirrorsIn(d, f, s, dir, entries2, blocks2)
    ensures MirrorsIn(d, f, s, dir, entries, blocks)
  {
    hide WalksSlots, RecordsIn, RecordOf, RecordsFor, AllHeaders, Fitting;
    OrderIsDecided(d, dir, |HashTable(d[dir])|, entries, entries2);
    StrungIsAll(d, dir, At(d[dir], CacheHead), blocks);
  }

  lemma DatedMirror(d: Disk, f: Format, s: Shape, dir: Lba, x: Lba, now: Date, entries: seq<Lba>, blocks: seq<Lba>)
    requires Grown(d, s) && IsFolder(d, s, dir) && MirrorsIn(d, f, s, dir, entries, blocks) && EntryOf(d, s, dir, x)
              && x != dir
    requires Tree(d[x := Dated(d[x], now)], s) == Tree(d, s)
    ensures ListsFolder(d[x := Dated(d[x], now)], s, dir, entries) && IsCacheOf(d[x := Dated(d[x], now)], dir, blocks)
    ensures MirrorsIn(d[x := Dated(d[x], now)], f, s, dir, entries, blocks) <==> Narrow(now) == Narrow(d[x].meta.date)
  {
    ListedThere(d, s, dir, entries, x);
    hide Grown, Tree, ListsFolder, IsCacheOf, SameWalk, RecordOf, Dated, Narrow, RecordsIn, RecordsFor, Fitting,
      AllHeaders, IsFolder;
    DatedWalk(d, dir, entries, x, now);
    DatedCache(d, s, dir, blocks, x, now);
    FolderByTree(d, s, d[x := Dated(d[x], now)], s, dir, entries);
    DatedList(d, s, entries, x, now);
  }

  /** The records of the entries change with the date, as far as a record keeps it. */
  lemma DatedList(d: Disk, s: Shape, entries: seq<Lba>, x: Lba, now: Date)
    requires AllHeaders(d, entries) && x in entries && x < |d| && d[x].Header?
    ensures AllHeaders(d[x := Dated(d[x], now)], entries)
    ensures RecordsFor(d[x := Dated(d[x], now)], entries) == RecordsFor(d, entries) <==>
              Narrow(now) == Narrow(d[x].meta.date)
  {
    hide RecordOf, Dated, Narrow;
    var e := d[x := Dated(d[x], now)];
    DatedRecords(d, s, entries, x, now);
    var k :| 0 <= k < |entries| && entries[k] == x;
    assert RecordsFor(e, entries)[k] == RecordOf(e, x) && RecordsFor(d, entries)[k] == RecordOf(d, x);
    if Narrow(now) == Narrow(d[x].meta.date) { assert RecordsFor(e, entries) == RecordsFor(d, entries); }
  }

  lemma ListedThere(d: Disk, s: Shape, dir: Lba, entries: seq<Lba>, x: Lba)
    requires ListsFolder(d, s, dir, entries) && EntryOf(d, s, dir, x)
    ensures x in entries && x < |d| && d[x].Header? && dir < |d| && IsDirectory(d[dir])
  {}

  lemma DatedWalk(d: Disk, dir: Lba, entries: seq<Lba>, x: Lba, now: Date)
    requires x < |d| && d[x].Header? && dir < |d| && IsDirectory(d[dir]) && x != dir
    ensures SameWalk(d, d[x := Dated(d[x], now)], dir, entries)
  {}

  lemma DatedRecords(d: Disk, s: Shape, entries: seq<Lba>, x: Lba, now: Date)
    requires AllHeaders(d, entries) && x < |d| && d[x].Header?
    ensures AllHeaders(d[x := Dated(d[x], now)], entries)
    ensures forall y :: y in entries && (y != x || Narrow(now) == Narrow(d[x].meta.date)) ==>
              RecordOf(d[x := Dated(d[x], now)], y) == RecordOf(d, y)
    ensures RecordOf(d[x := Dated(d[x], now)], x).meta.date == Narrow(now)
              && RecordOf(d, x).meta.date == Narrow(d[x].meta.date)
  {}

  lemma DatedCache(d: Disk, s: Shape, dir: Lba, blocks: seq<Lba>, x: Lba, now: Date)
    requires IsCacheOf(d, dir, blocks) && x < |d| && d[x].Header? && x != dir
    ensures IsCacheOf(d[x := Dated(d[x], now)], dir, blocks)
              && RecordsIn(d[x := Dated(d[x], now)], blocks) == RecordsIn(d, blocks)
    ensures forall b :: b in blocks ==> b < |d| && d[b].Cache? && d[x := Dated(d[x], now)][b] == d[b]
  {
    var e := d[x := Dated(d[x], now)];
    forall i | 0 <= i < |blocks|
      ensures CacheStep(e, dir, blocks[i], NextIn(blocks, i, 0)) && e[blocks[i]] == d[blocks[i]] && d[blocks[i]].Cache?
    {
      assert CacheStep(d, dir, blocks[i], NextIn(blocks, i, 0));
    }
    SameRecords(d, blocks, e);
  }

  /** The advisory records of one directory or of two: caches first, then dates. */
  method AdviseBoth(m: Mutator, dir: Lba, other: Lba) returns (r: Result<(), MutateError>)
    requires m.Valid() && IsFolder(m.vol.src.blocks, m.shape, dir) && IsFolder(m.vol.src.blocks, m.shape, other)
    modifies m`live, m`shape, m.vol.src, m.alloc
    ensures m.Valid() && m.Entries() == old(m.Entries()) && m.shape.orphans == old(m.shape).orphans
    ensures forall x :: old(m.Spent(x)) ==> m.Spent(x)
    ensures r.Err? ==> m.vol.f.dircache
    ensures !m.vol.f.dircache ==> m.alloc.Free() == old(m.alloc.Free())
    ensures Carries(old(m.vol.src.blocks), old(m.shape), m.vol.src.blocks, m.shape)
    ensures r.Ok? ==> MirrorsBut(m, dir, other) && MirrorsBut(m, other, dir)
    ensures r.Ok? ==> IsFolder(m.vol.src.blocks, m.shape, dir) && IsFolder(m.vol.src.blocks, m.shape, other)
  {
    hide Mutator.Steady, Rooted, Tree, Mirrors, Carries, IsFolder, Mutator.Spent, MirrorsBut;
    ghost var d, s := m.vol.src.blocks, m.shape;
    r := RefreshBoth(m, dir, other);
    if r.Err? {
      return;
    }
    ghost var e, t := m.vol.src.blocks, m.shape;
    TouchBoth(m, dir, other);
    CarriesOn(d, s, e, t, m.vol.src.blocks, m.shape);
  }

  method RefreshBoth(m: Mutator, dir: Lba, other: Lba) returns (r: Result<(), MutateError>)
    requires m.Valid() && IsFolder(m.vol.src.blocks, m.shape, dir) && IsFolder(m.vol.src.blocks, m.shape, other)
    modifies m`live, m`shape, m.vol.src, m.alloc
    ensures m.Valid() && m.Entries() == old(m.Entries()) && m.shape.orphans == old(m.shape).orphans
    ensures forall x :: old(m.Spent(x)) ==> m.Spent(x)
    ensures r.Err? ==> m.vol.f.dircache
    ensures !m.vol.f.dircache ==> m.alloc.Free() == old(m.alloc.Free())
    ensures Carries(old(m.vol.src.blocks), old(m.shape), m.vol.src.blocks, m.shape)
    ensures IsFolder(m.vol.src.blocks, m.shape, dir) && IsFolder(m.vol.src.blocks, m.shape, other)
    ensures r.Ok? && m.vol.f.dircache ==>
              Mirrors(m.vol.src.blocks, m.vol.f, m.shape, dir) && Mirrors(m.vol.src.blocks, m.vol.f, m.shape, other)
  {
    hide Mutator.Steady, Rooted, Tree, Mirrors, Grown, Carries, IsFolder, Mutator.Spent, OnlyCacheOf;
    ghost var d, s := m.vol.src.blocks, m.shape;
    m.RootFacts();
    r := m.RefreshDircache(dir);
    ghost var e, t := m.vol.src.blocks, m.shape;
    m.RootFacts();
    Mutator.FolderStays(d, s, e, t, dir);
    Mutator.FolderStays(d, s, e, t, other);
    if r.Err? || other == dir {
      return;
    }
    r := m.RefreshDircache(other);
    CarriesOn(d, s, e, t, m.vol.src.blocks, m.shape);
    m.RootFacts();
    Mutator.FolderStays(e, t, m.vol.src.blocks, m.shape, dir);
    Mutator.FolderStays(e, t, m.vol.src.blocks, m.shape, other);
    if m.vol.f.dircache { RefreshKeepsMirror(e, m.vol.f, t, dir, other, m.vol.src.blocks, m.shape); }
  }

  method TouchBoth(m: Mutator, dir: Lba, other: Lba)
    requires m.Valid() && IsFolder(m.vol.src.blocks, m.shape, dir) && IsFolder(m.vol.src.blocks, m.shape, other)
    requires m.vol.f.dircache ==>
              Mirrors(m.vol.src.blocks, m.vol.f, m.shape, dir) && Mirrors(m.vol.src.blocks, m.vol.f, m.shape, other)
    modifies m.vol.src
    ensures m.Valid() && m.Entries() == old(m.Entries())
    ensures Carries(old(m.vol.src.blocks), m.shape, m.vol.src.blocks, m.shape)
    ensures MirrorsBut(m, dir, other) && MirrorsBut(m, other, dir)
    ensures IsFolder(m.vol.src.blocks, m.shape, dir) && IsFolder(m.vol.src.blocks, m.shape, other)
  {
    hide Mutator.Steady, Rooted, Mirrors, Grown, Carries, IsFolder, OnlyDated;
    ghost var d := m.vol.src.blocks;
    m.RootFacts();
    m.Touch(dir);
    m.StillFolder(d, other);
    NotInside(m, d, dir, other);
    ghost var e := m.vol.src.blocks;
    m.RootFacts();
    if other != dir {
      m.Touch(other);
      CarriesOn(d, m.shape, e, m.shape, m.vol.src.blocks, m.shape);
      m.StillFolder(e, dir);
      NotInside(m, e, other, dir);
    }
  }

  /** Stamping directory `x` leaves the cache of a directory it is not filed in as it was. */
  lemma NotInside(m: Mutator, d: Disk, x: Lba, dir: Lba)
    requires m.Valid() && Grown(d, m.shape) && Tree(d, m.shape) == m.Entries() && IsFolder(d, m.shape, dir)
              && OnlyDated(d, m.shape, x, m.vol.src.blocks)
    requires m.clock.None? ==> m.vol.src.blocks == d
    ensures Mirrors(d, m.vol.f, m.shape, dir) && (m.clock.None? || !Inside(m.Entries(), x, dir)) ==>
              Mirrors(m.vol.src.blocks, m.vol.f, m.shape, dir)
  {
    hide Mutator.Valid, Mirrors, Grown, IsFolder;
    InTree(d, m.shape, dir, x);
    hide OnlyDated, Tree;
    if Mirrors(d, m.vol.f, m.shape, dir) && m.clock.Some? && !Inside(m.Entries(), x, dir) {
      NeutralKeepsMirror(d, m.vol.f, m.shape, dir, x, m.vol.src.blocks);
    }
  }

  /** Give back a comment block, if one was dropped, and settle the accounts. */
  method FreeNote(m: Mutator, was: Lba, now: Lba)
    requires m.Valid() && m.DroppedIsSpent(was, now) && (now == was || now == 0 || was == 0)
    modifies m`live, m.vol.src, m.alloc
    ensures m.Valid() && m.Entries() == old(m.Entries())
    ensures Carries(old(m.vol.src.blocks), m.shape, m.vol.src.blocks, m.shape)
    ensures m.alloc.Free() == old(m.alloc.Free()) + if was != 0 && now == 0 then {was} else {}
    ensures forall y ::
              IsFolder(old(m.vol.src.blocks), m.shape, y) && old(Mirrors(m.vol.src.blocks, m.vol.f, m.shape, y)) ==>
              Mirrors(m.vol.src.blocks, m.vol.f, m.shape, y)
  {
    hide Mutator.Steady, Rooted, Tree, Carries, Mutator.Spent, Mirrors, IsFolder;
    ghost var d := m.vol.src.blocks;
    m.RootFacts();
    m.PagesNow();
    if was != 0 && now == 0 {
      var freed := m.FreeAll([was]);
      assert SetOf([was]) == {was};
    }
    m.FlushBitmap();
    ghost var e := m.vol.src.blocks;
    m.RootFacts();
    m.StampBlocksUsed();
    CarriesOn(d, m.shape, e, m.shape, m.vol.src.blocks, m.shape);
    AllMirrorToTheEnd(m, d, e);
  }

  /** Flushing the bitmap and counting its blocks leaves every cache as it was. */
  lemma AllMirrorToTheEnd(m: Mutator, d: Disk, e: Disk)
    requires m.Valid() && Grown(d, m.shape) && Grown(e, m.shape) && PagesRewritten(d, e, m.g)
    requires forall i :: 0 <= i < |m.g.pages| ==> m.g.pages[i] < |d| && d[m.g.pages[i]].Bitmap?
    requires Tree(d, m.shape) == Tree(e, m.shape) == m.Entries() && |e| == |m.vol.src.blocks|
              && m.vol.root == m.shape.root < |e| && e[m.vol.root].Root?
    requires Neutral(e[m.vol.root], m.vol.src.blocks[m.vol.root]) && forall x: Lba :: x != m.vol.root && x < |e| ==>
              m.vol.src.blocks[x] == e[x]
    ensures forall y :: IsFolder(d, m.shape, y) && Mirrors(d, m.vol.f, m.shape, y) ==>
              Mirrors(m.vol.src.blocks, m.vol.f, m.shape, y)
  {
    hide Mutator.Valid, Mirrors, Grown, Tree, IsFolder, PagesRewritten, Neutral;
    forall y | IsFolder(d, m.shape, y) && Mirrors(d, m.vol.f, m.shape, y)
      ensures Mirrors(m.vol.src.blocks, m.vol.f, m.shape, y)
    {
      MirrorsToTheEnd(m, d, e, y);
    }
  }

  lemma MirrorsToTheEnd(m: Mutator, d: Disk, e: Disk, dir: Lba)
    requires m.Valid() && Grown(d, m.shape) && Grown(e, m.shape) && IsFolder(d, m.shape, dir)
              && Mirrors(d, m.vol.f, m.shape, dir)
              && PagesRewritten(d, e, m.g)
    requires forall i :: 0 <= i < |m.g.pages| ==> m.g.pages[i] < |d| && d[m.g.pages[i]].Bitmap?
    requires Tree(d, m.shape) == Tree(e, m.shape) == m.Entries() && |e| == |m.vol.src.blocks|
              && m.vol.root == m.shape.root < |e| && e[m.vol.root].Root?
    requires Neutral(e[m.vol.root], m.vol.src.blocks[m.vol.root]) && forall x: Lba :: x != m.vol.root && x < |e| ==>
              m.vol.src.blocks[x] == e[x]
    ensures Mirrors(m.vol.src.blocks, m.vol.f, m.shape, dir)
  {
    hide Mutator.Valid, Mirrors, Grown, Tree, IsFolder, PagesRewritten, Neutral;
    FlushKeepsMirrors(d, m.vol.f, m.shape, dir, e, m.g);
    Mutator.FolderStays(d, m.shape, e, m.shape, dir);
    RootKeepsMirror(e, m.vol.f, m.shape, dir, m.vol.src.blocks);
  }

  /** From `from` on the directories are as they were; then, for two writes, without the
      entry `h`; and from then on as they are. */
  ghost predicate AwayForTwo(trail: seq<Disk>, from: nat, f: Format, root: Lba, was: map<Lba, Fact>, h: Lba,
          now: map<Lba, Fact>) {
    exists at :: from <= at < |trail| - 2 && AwayAt(trail, from, at, f, root, was, h, now)
  }

  ghost predicate AwayAt(trail: seq<Disk>, from: nat, at: nat, f: Format, root: Lba, was: map<Lba, Fact>, h: Lba,
          now: map<Lba, Fact>)
    requires at < |trail| - 2
  {
    && Shown(trail[..at], from, f, root, {was})
    && Shows(trail[at], f, root, was - {h}) && Shows(trail[at + 1], f, root, was - {h})
    && Shown(trail, at + 2, f, root, {now})
  }

  lemma AwayNow(before: seq<Disk>, out: Disk, mid: Disk, e: Disk, trail: seq<Disk>, from: nat, f: Format, root: Lba,
          was: map<Lba, Fact>, h: Lba, now: map<Lba, Fact>)
    requires from <= |before| && before + [out, mid, e] <= trail && Shown(before, from, f, root, {was})
    requires Shows(out, f, root, was - {h}) && Shows(mid, f, root, was - {h}) && Shows(e, f, root, now)
    requires Shown(trail, |before| + 3, f, root, {now})
    ensures AwayForTwo(trail, from, f, root, was, h, now)
  {
    hide Shows;
    var at := |before|;
    assert trail[..at] == before && trail[at] == out && trail[at + 1] == mid && trail[at + 2] == e;
    forall i | at + 2 <= i < |trail|
      ensures ShowsOne(trail[i], f, root, {now})
    {}
    assert AwayAt(trail, from, at, f, root, was, h, now);
  }

  /** The free blocks are as many as before, but for the comment's block that header `h` had
      and the one its comment takes now. */
  ghost predicate NotesBalance(f: Format, d: Disk, h: Lba, name: Bytes, comment: Bytes, was: nat, now: nat) {
    h < |d| && d[h].Header? && now + NoteCount(NeedsCommentBlock(f, name, comment)) == was + NoteCount(d[h].note != 0)
  }

  /** What a rename needs: an entry that can go there, and a block for its comment if it
      comes to need one. */
  ghost predicate MayMove(f: Format, d: Disk, s: Shape, free: set<Lba>, dir: Lba, name: Bytes, newDir: Lba,
          newName: Bytes) {
    && |name| <= MaxName(f)
    && exists h :: Filed(Tree(d, s), f.intl, dir, name, h) && MayGoTo(f, d, s, h, newDir, newName)
                   && NoteFits(f, d, free, h, newName, Tree(d, s)[h].comment)
  }

  /** Move and/or rename an entry, within one directory or between two. A name that differs
      from the old one in case alone is the entry's own, not a duplicate. A crash leaves the
      old directories, the new ones, or, after exactly two of the writes, the old ones
      without the entry; every file reads the same throughout. */
  method Rename(m: Mutator, dir: Lba, name: Bytes, newDir: Lba, newName: Bytes)
          returns (r: Result<(), MutateError>, ghost h: Lba)
    requires m.Valid() && m.Handle(dir) && m.Handle(newDir)
    modifies m, m.vol.src, m.alloc
    ensures m.Valid()
    ensures h == 0 ==>
              r.Err? && m.Entries() == old(m.Entries())
              && Shown(m.vol.src.trail, |old(m.vol.src.trail)|, m.vol.f, m.vol.root, {old(m.Entries())})
    ensures h != 0 ==>
              && (r.Err? ==> m.vol.f.dircache) && Filed(old(m.Entries()), m.vol.f.intl, dir, name, h)
              && m.Entries() == old(m.Entries())[h := old(m.Entries())[h].(dir := newDir, name := newName)]
              && AwayForTwo(m.vol.src.trail, |old(m.vol.src.trail)|, m.vol.f, m.vol.root, old(m.Entries()), h,
                  m.Entries())
    ensures !m.vol.f.dircache ==>
              (r.Ok? <==> old(MayMove(m.vol.f, m.vol.src.blocks, m.shape, m.alloc.Free(), dir, name, newDir, newName)))
    ensures |name| <= MaxName(m.vol.f) && NameOk(newName, MaxName(m.vol.f))
              && Taken(old(m.Entries()), m.vol.f.intl, dir, name, newDir, newName) ==>
              r == Err(DuplicateName(newDir, newName))
    ensures m.vol.f.payload > 0 && OthersRead(old(m.vol.src.blocks), m.vol.f, old(m.shape), 0, m.vol.src.trail,
              |old(m.vol.src.trail)|)
    ensures StillThere(old(m.vol.src.blocks), m.vol.f, old(m.shape), 0, m.vol.src.blocks, m.shape)
    ensures r.Ok? && !m.vol.f.dircache ==>
              NotesBalance(m.vol.f, old(m.vol.src.blocks), h, newName, m.Entries()[h].comment, |old(m.alloc.Free())|,
              |m.alloc.Free()|)
    ensures r.Err? && !m.vol.f.dircache ==> m.alloc.Free() == old(m.alloc.Free())
    ensures r.Ok? ==> MirrorsBut(m, dir, newDir) && MirrorsBut(m, newDir, dir)
    ensures old(m.vol.src.trail) <= m.vol.src.trail
  {
    hide Mutator.Ready, Orderly, Mutation.Kept, Rooted, Tree, Carries, Grown, Named, IsFolder, SameName, Absent, Taken,
      Climbs, Beneath,
      Mutator.Spent, Mutator.NoteReady, NoteSays, OthersRead, StillThere, Shown, Mutator.BeganWith, AwayForTwo,
          MirrorsBut;
    OrderlyNow(m);
    m.Begin({});
    BeganHere(m, {});
    h := 0;
    ghost var d, s, rank, tree, writes := m.vol.src.blocks, m.shape, m.rank, m.Entries(), m.vol.src.trail;
    NothingYet(d, m.vol.f, s, 0, writes);
    NothingShown(writes, m.vol.f, m.vol.root, {tree});
    CarriesItself(d, s);
    var may;
    ghost var up;
    may, up := MayRename(m, dir, name, newDir, newName);
    if may.Err? {
      return Err(may.error), h;
    }
    var entry := may.value;
    OnlyOneFiled(m, dir, name, entry);
    EntryBlock(m, entry);
    ZeroIsNobody(m, entry);
    ghost var moved;
    r, moved := RenameEntry(m, dir, entry, newDir, newName, up, d, s, rank, writes);
    if moved { h := entry; }
  }

  /** A block for the comment if the new name leaves it no room, then the move. */
  method RenameEntry(m: Mutator, dir: Lba, h: Lba, newDir: Lba, newName: Bytes, ghost up: seq<Lba>, ghost d: Disk,
          ghost s: Shape, ghost rank: map<Lba, int>, ghost writes: seq<Disk>)
    returns (r: Result<(), MutateError>, ghost moved: bool)
    requires m.Valid() && h in m.Entries() && m.Entries()[h].dir == dir && IsFolder(m.vol.src.blocks, m.shape, dir)
    requires IsFolder(m.vol.src.blocks, m.shape, newDir) && Absent(m.Entries() - {h}, m.vol.f.intl, newDir, newName)
    requires |up| > 0 && up[0] == newDir && Climbs(m.vol.src.blocks, m.shape, newDir, up) && h !in up
              && m.vol.f.payload > 0
    requires Began(m, d, s, rank, writes, {}) && m.views == {m.Entries()} && d == m.vol.src.blocks && s == m.shape
              && rank == m.rank
              && writes == m.vol.src.trail
    modifies m, m.vol.src, m.alloc
    ensures m.Valid()
    ensures !moved ==>
              r.Err? && m.Entries() == old(m.Entries())
              && Shown(m.vol.src.trail, |writes|, m.vol.f, m.vol.root, {old(m.Entries())})
    ensures moved ==>
              (r.Err? ==> m.vol.f.dircache) && m.Entries() ==
              old(m.Entries())[h := old(m.Entries())[h].(dir := newDir, name := newName)]
    ensures moved ==> AwayForTwo(m.vol.src.trail, |writes|, m.vol.f, m.vol.root, old(m.Entries()), h, m.Entries())
    ensures moved <==> old(NoteFits(m.vol.f, m.vol.src.blocks, m.alloc.Free(), h, newName, m.Entries()[h].comment))
    ensures OthersRead(d, m.vol.f, s, 0, m.vol.src.trail, |writes|)
              && StillThere(d, m.vol.f, s, 0, m.vol.src.blocks, m.shape)
    ensures r.Ok? && !m.vol.f.dircache ==>
              NotesBalance(m.vol.f, d, h, newName, old(m.Entries())[h].comment, |old(m.alloc.Free())|, |m.alloc.Free()|)
    ensures r.Err? && !m.vol.f.dircache ==> m.alloc.Free() == old(m.alloc.Free())
    ensures r.Ok? ==> MirrorsBut(m, dir, newDir) && MirrorsBut(m, newDir, dir)
    ensures writes <= m.vol.src.trail
  {
    hide Mutator.Ready, Orderly, Mutation.Kept, Rooted, Tree, Carries, Grown, Named, IsFolder, SameName, Absent,
      Climbs, NeedsCommentBlock,
      Mutator.Spent, Mutator.NoteReady, NoteSays, OthersRead, StillThere, Shown, Began, Mutator.BeganWith, AwayForTwo,
          MirrorsBut, EntryOf;
    ghost var tree, free := m.Entries(), m.alloc.Free();
    CarriesItself(d, s);
    EntryComment(m, h);
    var comment := CommentOf(m.vol.src.blocks, m.vol.src.blocks[h]);
    CommentIs(d, d[h]);
    m.InOrderNow();
    NoteIsTaken(m, h);
    var note := SettleNote(m, h, newName, comment);
    if note.Err? {
      OthersSoFar(m, d, s, rank, writes, 0);
      BeganPart(m, d, s, rank, writes, {});
      m.ShownSince(d, s, writes, {});
      return Err(note.error), false;
    }
    StillEntryThere(m, d, rank, dir, h, newDir, up);
    EntryComment(m, h);
    ghost var drawn := m.alloc.Free();
    r := MoveAndAdvise(m, dir, h, newDir, newName, comment, note.value, up, d, s, rank, writes);
    if r.Ok? && !m.vol.f.dircache { NotesCount(free, drawn, m.alloc.Free(), d[h].note, note.value); }
    moved := true;
  }

  /** The comment's block, where it has one, is allocated. */
  lemma NoteIsTaken(m: Mutator, h: Lba)
    requires m.Valid() && h in m.Entries()
    ensures h < |m.vol.src.blocks| && m.vol.src.blocks[h].Header?
              && (m.vol.src.blocks[h].note != 0 ==> m.vol.src.blocks[h].note !in m.alloc.Free())
  {
    hide Mutator.Ready, Named;
    if m.vol.src.blocks[h].note != 0 { NoteIsOwned(m.vol.src.blocks, m.shape, h); }
  }

  lemma NotesCount(was: set<Lba>, drawn: set<Lba>, now: set<Lba>, had: Lba, has: Lba)
    requires NoteDrawn(was, drawn, had, has) && (had != 0 ==> had !in was) && (has == 0 || has == had || had == 0)
    requires now == drawn + if had != 0 && has == 0 then {had} else {}
    ensures |now| + NoteCount(has != 0) == |was| + NoteCount(had != 0)
  {}

  /** The writes of a rename, then the advisory records, then a comment block given back. */
  method MoveAndAdvise(m: Mutator, dir: Lba, h: Lba, newDir: Lba, newName: Bytes, comment: Bytes, note: Lba,
          ghost up: seq<Lba>, ghost d: Disk, ghost s: Shape, ghost rank: map<Lba, int>, ghost writes: seq<Disk>)
    returns (r: Result<(), MutateError>)
    requires m.Valid() && IsFolder(m.vol.src.blocks, m.shape, dir) && EntryOf(m.vol.src.blocks, m.shape, dir, h)
    requires IsFolder(m.vol.src.blocks, m.shape, newDir) && Absent(m.Entries() - {h}, m.vol.f.intl, newDir, newName)
    requires |up| > 0 && up[0] == newDir && Climbs(m.vol.src.blocks, m.shape, newDir, up) && h !in up
    requires m.NoteReady(h, note) && h in m.Entries() && comment == m.Entries()[h].comment
              && NoteSays(m.vol.src.blocks, note, comment)
    requires h < |m.vol.src.blocks| && m.vol.src.blocks[h].Header? && m.vol.f.payload > 0
    requires note == 0 || note == m.vol.src.blocks[h].note || m.vol.src.blocks[h].note == 0
    requires Began(m, d, s, rank, writes, {}) && m.views == {m.Entries()} && Carries(d, s, m.vol.src.blocks, m.shape)
    modifies m, m.vol.src, m.alloc
    ensures m.Valid() && (r.Err? ==> m.vol.f.dircache)
    ensures m.Entries() == old(m.Entries())[h := old(m.Entries())[h].(dir := newDir, name := newName)]
    ensures AwayForTwo(m.vol.src.trail, |writes|, m.vol.f, m.vol.root, old(m.Entries()), h, m.Entries())
    ensures OthersRead(d, m.vol.f, s, 0, m.vol.src.trail, |writes|)
              && StillThere(d, m.vol.f, s, 0, m.vol.src.blocks, m.shape)
    ensures r.Ok? && !m.vol.f.dircache ==>
              m.alloc.Free() == old(m.alloc.Free()) + if old(m.vol.src.blocks)[h].note != 0
                  && note == 0 then {old(m.vol.src.blocks)[h].note} else {}
    ensures r.Ok? ==> MirrorsBut(m, dir, newDir) && MirrorsBut(m, newDir, dir)
    ensures writes <= m.vol.src.trail
  {
    hide Mutator.Ready, Orderly, Mutation.Kept, Rooted, Tree, Carries, Grown, Named, IsFolder, SameName, Absent, Climbs,
      Mutator.Spent, Mutator.NoteReady, NoteSays, OthersRead, StillThere, Shown, Shows, Began, Mutator.BeganWith,
          AwayForTwo, MirrorsBut;
    ghost var before, e, tree := m.vol.src.trail, m.vol.src.blocks, m.Entries();
    var was := m.vol.src.blocks[h].note;
    m.RootFacts();
    BeganPart(m, d, s, rank, writes, {});
    m.ShownSince(d, s, writes, {});
    ghost var out, mid := MoveEntry(m, dir, h, newDir, newName, comment, note, up);
    ghost var now, t, trail := m.vol.src.blocks, m.shape, m.vol.src.trail;
    CarriesOn(d, s, e, old(m.shape), now, t);
    OthersSoFar(m, d, s, rank, writes, 0);
    m.RootFacts();
    FoldersAfterMove(m, e, old(m.shape), h, dir, newDir);
    ShowsNow(m);
    m.Begin({});
    BeganHere(m, {});
    r := FollowMove(m, dir, newDir, was, note);
    m.ShownSince(now, t, trail, {});
    OthersThen(m, d, s, |writes|, now, t, trail, 0);
    AwayNow(before, out, mid, now, m.vol.src.trail, |writes|, m.vol.f, m.vol.root, tree, h, m.Entries());
  }

  /** The advisory records, and the comment's block if the entry has no more use for it. */
  method FollowMove(m: Mutator, dir: Lba, newDir: Lba, was: Lba, note: Lba) returns (r: Result<(), MutateError>)
    requires m.Valid() && IsFolder(m.vol.src.blocks, m.shape, dir) && IsFolder(m.vol.src.blocks, m.shape, newDir)
    requires m.DroppedIsSpent(was, note) && (note == 0 || note == was || was == 0)
    modifies m`live, m`shape, m.vol.src, m.alloc
    ensures m.Valid() && m.Entries() == old(m.Entries()) && (r.Err? ==> m.vol.f.dircache)
    ensures Carries(old(m.vol.src.blocks), old(m.shape), m.vol.src.blocks, m.shape)
    ensures r.Ok? && !m.vol.f.dircache ==>
              m.alloc.Free() == old(m.alloc.Free()) + if was != 0 && note == 0 then {was} else {}
    ensures r.Ok? ==> MirrorsBut(m, dir, newDir) && MirrorsBut(m, newDir, dir)
  {
    hide Mutator.Ready, Orderly, Mutation.Kept, Rooted, Tree, Carries, Grown, Named, IsFolder, Mutator.Spent, Mirrors;
    ghost var d, s := m.vol.src.blocks, m.shape;
    r := AdviseBoth(m, dir, newDir);
    if r.Err? {
      return;
    }
    ghost var e := m.vol.src.blocks;
    FreeNote(m, was, note);
    CarriesOn(d, s, e, m.shape, m.vol.src.blocks, m.shape);
  }

  /** The preparations moved no entry: the way up is the same. */
  lemma StillEntryThere(m: Mutator, d: Disk, rank: map<Lba, int>, dir: Lba, h: Lba, newDir: Lba, up: seq<Lba>)
    requires m.Valid() && Grown(d, m.shape) && |d| == |m.vol.src.blocks| && Tree(d, m.shape) == m.Entries()
    requires Named(d, m.vol.f, m.shape, rank)
    requires IsFolder(d, m.shape, dir) && h in Tree(d, m.shape) && Tree(d, m.shape)[h].dir == dir
              && IsFolder(d, m.shape, newDir)
    requires |up| > 0 && up[0] == newDir && Climbs(d, m.shape, newDir, up)
    ensures IsFolder(m.vol.src.blocks, m.shape, dir) && EntryOf(m.vol.src.blocks, m.shape, dir, h)
    ensures IsFolder(m.vol.src.blocks, m.shape, newDir) && Climbs(m.vol.src.blocks, m.shape, newDir, up)
  {
    hide Mutator.Ready, Mutation.Kept, Climbs, Named;
    InTree(d, m.shape, dir, h);
    StillEntry(m, d, dir, h);
    m.StillFolder(d, newDir);
    ClimbStays(d, m.vol.f, m.shape, rank, m.vol.src.blocks, newDir, up);
  }

  lemma ClimbStays(d: Disk, f: Format, s: Shape, rank: map<Lba, int>, e: Disk, dir: Lba, up: seq<Lba>)
    requires Grown(d, s) && Named(d, f, s, rank) && Grown(e, s) && |d| == |e| && Tree(d, s) == Tree(e, s)
              && Climbs(d, s, dir, up)
    ensures Climbs(e, s, dir, up)
  {
    TreeIsEntries(d, f, s, rank);
    RootIsDirectory(d, s);
    RootIsDirectory(e, s);
    hide Grown, Named, Tree, Climbs;
    forall z: Lba | IsEntry(s, z) && z < |d|
      ensures SameWayUp(d[z], e[z])
    {
      SameFactsSameWayUp(d, s, e, s, z);
    }
    ClimbFramed(d, s, e, s, dir, up);
  }

  lemma FoldersAfterMove(m: Mutator, d: Disk, s: Shape, h: Lba, dir: Lba, newDir: Lba)
    requires m.Valid() && Grown(d, s) && s.root == m.shape.root && IsFolder(d, s, dir) && IsFolder(d, s, newDir)
    requires h in Tree(d, s) &&
              exists name :: m.Entries() == Tree(d, s)[h := Tree(d, s)[h].(dir := newDir, name := name)]
    ensures IsFolder(m.vol.src.blocks, m.shape, dir) && IsFolder(m.vol.src.blocks, m.shape, newDir)
  {
    hide Mutator.Ready, Mutation.Kept, Named, Rooted;
    FolderInTree(d, s, dir);
    FolderInTree(d, s, newDir);
    FolderInTree(m.vol.src.blocks, m.shape, dir);
    FolderInTree(m.vol.src.blocks, m.shape, newDir);
  }

  lemma CommentIs(d: Disk, b: Block)
    requires b.Header?
    ensures FactOf(d, b).comment == CommentOf(d, b)
  {}

  // ---- Metadata ----------------------------------------------------------------------------------

  /** What a caller wants changed of an entry; nothing where it has no opinion. */
  datatype Update = Update(protection: Option<Word>, owner: Option<Word>, date: Option<Date>, comment: Option<Bytes>)

  function OrElse<T>(wanted: Option<T>, given: T): T {
    if wanted.Some? then wanted.value else given
  }

  function Updated(fact: Fact, u: Update): Fact {
    fact.(protection := OrElse(u.protection, fact.protection), owner := OrElse(u.owner, fact.owner),
        comment := OrElse(u.comment, fact.comment))
  }

  /** The header as one write leaves it. */
  function Rewritten(b: Block, u: Update, comment: Bytes, note: Lba): Block
    requires b.Header?
  {
    b.(comment := if note != 0 then [] else comment, note := note,
       meta := Meta(OrElse(u.protection, b.meta.protection), OrElse(u.owner, b.meta.owner),
           OrElse(u.date, b.meta.date)))
  }

  /** What the comment is to be. */
  function Remark(fact: Fact, u: Update): Bytes {
    OrElse(u.comment, fact.comment)
  }

  /** The comment has a block of its own and keeps it: it is rewritten in place. */
  predicate RewrittenThere(f: Format, b: Block, comment: Bytes) {
    b.Header? && b.note != 0 && NeedsCommentBlock(f, b.name, comment)
  }

  /** The one case in which an update is not one write: a comment rewritten in place and
      changed, and with it something the header says. A caller can tell beforehand. */
  predicate Mixes(f: Format, b: Block, fact: Fact, u: Update) {
    && RewrittenThere(f, b, Remark(fact, u)) && Remark(fact, u) != fact.comment && |Remark(fact, u)| <= COMMENT_MAX
    && (OrElse(u.protection, b.meta.protection) != b.meta.protection || OrElse(u.owner, b.meta.owner) != b.meta.owner
        || OrElse(u.date, b.meta.date) != b.meta.date)
  }

  ghost predicate MixesAt(m: Mutator, h: Lba, u: Update)
    reads m`shape, m.vol.src
  {
    h in m.Entries() && h < |m.vol.src.blocks| && m.vol.src.blocks[h].Header?
        && Mixes(m.vol.f, m.vol.src.blocks[h], m.Entries()[h], u)
  }

  /** Header `h` still says what `b` says, protection, owner and date, and its comment has
      already changed. */
  ghost predicate HalfWay(e: Disk, h: Lba, b: Block, comment: Bytes) {
    h < |e| && e[h] == b && b.Header? && CommentOf(e, b) == comment
  }

  ghost predicate SomeHalfWay(trail: seq<Disk>, from: nat, h: Lba, b: Block, comment: Bytes) {
    exists i :: from <= i < |trail| && HalfWay(trail[i], h, b, comment)
  }

  /** Change an entry's protection, comment, date or owner: one header write for all of
      them, the comment's own block written before it and given back after it. Every state
      shows the entry as it was or as it is to be, except where the update mixes: then one
      state has the new comment and nothing else new. */
  method SetMetadata(m: Mutator, h: Lba, u: Update) returns (r: Result<(), MutateError>)
    requires m.Valid() && (h in m.Entries() || h == m.vol.root
              || !(h < |m.vol.src.blocks| && m.vol.src.blocks[h].Header?))
    modifies m, m.vol.src, m.alloc
    ensures m.Valid()
    ensures r.Ok? ==> h in old(m.Entries()) && m.Entries() == old(m.Entries())[h := Updated(old(m.Entries())[h], u)]
    ensures r.Err? && m.Entries() != old(m.Entries()) ==>
              m.vol.f.dircache && h in old(m.Entries())
                  && m.Entries() == old(m.Entries())[h := Updated(old(m.Entries())[h], u)]
    ensures h == m.vol.root ==> r == Err(IsRoot(h))
    ensures h in old(m.Entries()) && |Remark(old(m.Entries())[h], u)| > COMMENT_MAX ==>
              r.Err? && m.Entries() == old(m.Entries())
    ensures !m.vol.f.dircache ==>
              (r.Ok? <==> old(h in m.Entries() && |Remark(m.Entries()[h], u)| <= COMMENT_MAX
                  && NoteFits(m.vol.f, m.vol.src.blocks, m.alloc.Free(), h, m.Entries()[h].name,
                      Remark(m.Entries()[h], u))))
    ensures !old(MixesAt(m, h, u)) ==>
              Shown(m.vol.src.trail, |old(m.vol.src.trail)|, m.vol.f, m.vol.root, {old(m.Entries()), m.Entries()})
    ensures old(MixesAt(m, h, u)) ==>
              && SomeHalfWay(m.vol.src.trail, |old(m.vol.src.trail)|, h, old(m.vol.src.blocks)[h],
                  Remark(old(m.Entries())[h], u))
              && Shown(m.vol.src.trail, |old(m.vol.src.trail)|, m.vol.f, m.vol.root,
                       {old(m.Entries()), old(m.Entries())[h :=
                           old(m.Entries())[h].(comment := Remark(old(m.Entries())[h], u))], m.Entries()})
    ensures m.vol.f.payload > 0 && OthersRead(old(m.vol.src.blocks), m.vol.f, old(m.shape), 0, m.vol.src.trail,
              |old(m.vol.src.trail)|)
    ensures StillThere(old(m.vol.src.blocks), m.vol.f, old(m.shape), 0, m.vol.src.blocks, m.shape)
    ensures r.Ok? && !m.vol.f.dircache ==>
              NotesBalance(m.vol.f, old(m.vol.src.blocks), h, m.Entries()[h].name, m.Entries()[h].comment,
              |old(m.alloc.Free())|, |m.alloc.Free()|)
    ensures r.Err? && !m.vol.f.dircache ==> m.alloc.Free() == old(m.alloc.Free())
    ensures r.Ok? && m.vol.f.dircache ==> Mirrors(m.vol.src.blocks, m.vol.f, m.shape, m.Entries()[h].dir)
    ensures old(m.vol.src.trail) <= m.vol.src.trail
  {
    hide Mutator.Ready, Orderly, Mutation.Kept, Rooted, Tree, Carries, Grown, Named, Mutator.Mine, Mutator.NoteReady,
      NoteSays,
      OthersRead, StillThere, Shown, Mutator.BeganWith, HalfWay;
    OrderlyNow(m);
    ghost var d, s, rank, tree, writes := m.vol.src.blocks, m.shape, m.rank, m.Entries(), m.vol.src.trail;
    NothingYet(d, m.vol.f, s, 0, writes);
    NothingShown(writes, m.vol.f, m.vol.root, {tree, m.Entries()});
    if h == m.vol.root {
      EntriesAreNoOrphans(m);
      return Err(IsRoot(h));
    }
    if h in m.Entries() { EntryComment(m, h); }
    var entry := m.vol.EntryAt(h);
    match entry {
      case Err(e) => return Err(Read(e));
      case Ok(b) =>
        var comment := OrElse(u.comment, CommentOf(m.vol.src.blocks, b));
        CommentIs(d, b);
        if |comment| > COMMENT_MAX {
          return Err(CommentTooLong(|comment|));
        }
        r := ChangeHeader(m, h, u, comment);
    }
  }

  /** The tree between the two writes of an update that mixes is neither the one before nor,
      when more than a date changes, the one after. */
  lemma HalfWayIsThird(f: Format, tree: map<Lba, Fact>, h: Lba, b: Block, d: Disk, u: Update)
    requires h in tree && b.Header? && tree[h] == FactOf(d, b) && Mixes(f, b, tree[h], u)
    ensures var half := tree[h := tree[h].(comment := Remark(tree[h], u))];
            && half != tree
            && (half == tree[h := Updated(tree[h], u)] <==>
                OrElse(u.protection, b.meta.protection) == b.meta.protection
                    && OrElse(u.owner, b.meta.owner) == b.meta.owner)
  {
    var half := tree[h := tree[h].(comment := Remark(tree[h], u))];
    assert half[h] != tree[h];
    assert half[h] == Updated(tree[h], u) ==> half == tree[h := Updated(tree[h], u)];
    assert tree[h := Updated(tree[h], u)][h] == Updated(tree[h], u);
  }

  /** A file with a name of 107 bytes, whose comment is in the block after its header. */
  function LongNamed(): (Disk, Block) {
    var b := Header(File, 900, 880, seq(107, i => 0x41), [], 901, 0, [], 0, 0, 0, 0, [], Meta(0, 0, Date(0, 0, 0)));
    (seq(902, i => if i == 900 then b else if i == 901 then Comment(901, 900, [0x42, 0x42, 0x42, 0x42, 0x42])
        else Blank), b)
  }

  /** Protect it and change its comment: half-way it is neither what it was nor what it is to be. */
  lemma LongNamedMixes()
    ensures var (d, b) := LongNamed();
            var tree, f := map[900 := FactOf(d, b)], Format(true, true, false, true, 72, 512, 488);
            var u := Update(Some(1), None, None, Some([0x43, 0x43, 0x43, 0x43, 0x43]));
            && Mixes(f, b, tree[900], u)
            && tree[900 := tree[900].(comment := Remark(tree[900], u))] !in {tree, tree[900 := Updated(tree[900], u)]}
  {
    var (d, b) := LongNamed();
    var tree, f := map[900 := FactOf(d, b)], Format(true, true, false, true, 72, 512, 488);
    var u := Update(Some(1), None, None, Some([0x43, 0x43, 0x43, 0x43, 0x43]));
    assert tree[900].comment[0] == 0x42 && Remark(tree[900], u)[0] == 0x43;
    HalfWayIsThird(f, tree, 900, b, d, u);
  }

  /** The states of an update of `tree` to `now`: an update that mixes has one between. */
  ghost predicate UpdateShown(trail: seq<Disk>, from: nat, f: Format, root: Lba, b: Block, tree: map<Lba, Fact>,
          h: Lba, u: Update, now: map<Lba, Fact>) {
    && h in tree && b.Header?
    && if Mixes(f, b, tree[h], u)
       then SomeHalfWay(trail, from, h, b, Remark(tree[h], u))
            && Shown(trail, from, f, root, {tree, tree[h := tree[h].(comment := Remark(tree[h], u))], now})
       else Shown(trail, from, f, root, {tree, now})
  }

  /** What they show when there was no second phase. */
  lemma NothingButHalf(trail: seq<Disk>, from: nat, f: Format, root: Lba, b: Block, tree: map<Lba, Fact>, h: Lba,
          u: Update)
    requires h in tree && b.Header? && Shown(trail, from, f, root, {tree, tree}) && !Mixes(f, b, tree[h], u)
    ensures UpdateShown(trail, from, f, root, b, tree, h, u, tree)
  {
    hide Shown, Mixes;
  }

  /** The writes of an update, whose first are the comment's. */
  method ChangeHeader(m: Mutator, h: Lba, u: Update, comment: Bytes) returns (r: Result<(), MutateError>)
    requires m.Valid() && h in m.Entries() && comment == Remark(m.Entries()[h], u) && |comment| <= COMMENT_MAX
              && m.vol.f.payload > 0
    modifies m, m.vol.src, m.alloc
    ensures m.Valid() && h < |old(m.vol.src.blocks)|
    ensures (!m.vol.f.dircache ==>
              (r.Ok? <==> old(NoteFits(m.vol.f, m.vol.src.blocks, m.alloc.Free(), h, m.Entries()[h].name, comment))))
    ensures m.Entries() == old(m.Entries())[h := Updated(old(m.Entries())[h], u)]
              || (r.Err? && m.Entries() == old(m.Entries()))
    ensures r.Ok? ==> m.Entries() == old(m.Entries())[h := Updated(old(m.Entries())[h], u)]
    ensures r.Err? && m.Entries() != old(m.Entries()) ==> m.vol.f.dircache
    ensures UpdateShown(m.vol.src.trail, |old(m.vol.src.trail)|, m.vol.f, m.vol.root, old(m.vol.src.blocks)[h],
              old(m.Entries()), h, u, m.Entries())
    ensures OthersRead(old(m.vol.src.blocks), m.vol.f, old(m.shape), 0, m.vol.src.trail, |old(m.vol.src.trail)|)
    ensures StillThere(old(m.vol.src.blocks), m.vol.f, old(m.shape), 0, m.vol.src.blocks, m.shape)
    ensures r.Ok? && !m.vol.f.dircache ==>
              NotesBalance(m.vol.f, old(m.vol.src.blocks), h, old(m.Entries())[h].name, comment, |old(m.alloc.Free())|,
              |m.alloc.Free()|)
    ensures r.Err? && !m.vol.f.dircache ==> m.alloc.Free() == old(m.alloc.Free())
    ensures r.Ok? && m.vol.f.dircache ==> Mirrors(m.vol.src.blocks, m.vol.f, m.shape, old(m.Entries())[h].dir)
    ensures old(m.vol.src.trail) <= m.vol.src.trail
  {
    hide Mutator.Steady, Rooted, Tree, Carries, Grown, Named, Mutator.Mine, NoteSays,
      OthersRead, StillThere, Shown, Mutator.BeganWith, Began, SomeHalfWay, FactOf, NeedsCommentBlock, Mirrors, Mixes,
          RewrittenThere, NoteDrawn, Updated, UpdateShown,
      Mutator.NoteReady, Mutator.Valid;
    NoteIsTaken(m, h);
    ghost var free := m.alloc.Free();
    ghost var d, s, rank, tree, writes, f := m.vol.src.blocks, m.shape, m.rank, m.Entries(), m.vol.src.trail, m.vol.f;
    EntrySays(m, h);
    var note := TextPhase(m, h, comment);
    ghost var now, trail, half := m.vol.src.blocks, m.vol.src.trail, m.Entries();
    MixesRewrites(f, d[h], tree[h], u);
    if note.Err? {
      NothingButHalf(trail, |writes|, f, m.vol.root, d[h], tree, h, u);
      return Err(note.error);
    }
    ghost var drawn := m.alloc.Free();
    r := HeaderAfter(m, h, u, comment, note.value, d, s, |writes|);
    if r.Ok? && !m.vol.f.dircache { NotesCount(free, drawn, m.alloc.Free(), d[h].note, note.value); }
    HalfWayOrNot(f, m.vol.root, d[h], tree, h, u, half, m.Entries(), writes, trail, m.vol.src.trail, now);
  }

  /** The first writes: the comment's, where it needs any. */
  method TextPhase(m: Mutator, h: Lba, comment: Bytes) returns (r: Result<Lba, MutateError>)
    requires m.Valid() && h in m.Entries() && m.vol.f.payload > 0
    modifies m, m.vol.src, m.alloc
    ensures m.Valid() && old(m.vol.src.trail) <= m.vol.src.trail
    ensures Shown(m.vol.src.trail, |old(m.vol.src.trail)|, m.vol.f, m.vol.root, {old(m.Entries()), m.Entries()})
    ensures OthersRead(old(m.vol.src.blocks), m.vol.f, old(m.shape), 0, m.vol.src.trail, |old(m.vol.src.trail)|)
    ensures StillThere(old(m.vol.src.blocks), m.vol.f, old(m.shape), 0, m.vol.src.blocks, m.shape)
    ensures h < |m.vol.src.blocks| && m.vol.src.blocks[h].Header?
    ensures h < |old(m.vol.src.blocks)| && m.vol.src.blocks[h] == old(m.vol.src.blocks)[h]
    ensures r.Ok? <==>
              old(NoteFits(m.vol.f, m.vol.src.blocks, m.alloc.Free(), h, m.vol.src.blocks[h].name, comment))
    ensures r.Err? ==> m.alloc.Free() == old(m.alloc.Free())
    ensures if RewrittenThere(m.vol.f, old(m.vol.src.blocks)[h], comment)
            then var note := old(m.vol.src.blocks)[h].note;
                 && r == Ok(note) && m.vol.src.trail == old(m.vol.src.trail) + [m.vol.src.blocks]
                 && 0 < note < |m.vol.src.blocks| && m.vol.src.blocks[note] == Comment(note, h, comment)
                 && m.Entries() == old(m.Entries())[h := old(m.Entries())[h].(comment := comment)]
            else m.Entries() == old(m.Entries())
    ensures r.Ok? ==> m.NoteReady(h, r.value) && NoteSays(m.vol.src.blocks, r.value, comment)
    ensures r.Ok? ==> (r.value != 0 <==> NeedsCommentBlock(m.vol.f, m.vol.src.blocks[h].name, comment))
    ensures r.Ok? ==> NoteDrawn(old(m.alloc.Free()), m.alloc.Free(), m.vol.src.blocks[h].note, r.value)
    ensures r.Ok? ==> r.value == 0 || r.value == m.vol.src.blocks[h].note || m.vol.src.blocks[h].note == 0
  {
    hide Mutator.Valid, Mutator.Mine, Mutator.NoteReady, Carries, Grown, Named, Rooted, Tree, Began, OthersRead,
      StillThere, Shown, Mutator.BeganWith, NoteSays, FactOf, NoteDrawn, NeedsCommentBlock, RewrittenThere;
    EntrySays(m, h);
    OrderlyNow(m);
    ghost var d, s, rank, tree, writes := m.vol.src.blocks, m.shape, m.rank, m.Entries(), m.vol.src.trail;
    m.Begin({});
    BeganHere(m, {});
    r := PrepareText(m, h, comment);
    BeganPart(m, d, s, rank, writes, {});
    SteadyNow(m);
    m.ShownSince(d, s, writes, {});
    OthersSoFar(m, d, s, rank, writes, 0);
    ShownWider(m.vol.src.trail, |writes|, m.vol.f, m.vol.root, m.views, {tree, m.Entries()});
  }

  lemma EntrySays(m: Mutator, h: Lba)
    requires m.Valid() && h in m.Entries()
    ensures h < |m.vol.src.blocks| && m.vol.src.blocks[h].Header?
    ensures var fact := m.Entries()[h];
            fact.protection == m.vol.src.blocks[h].meta.protection && fact.owner == m.vol.src.blocks[h].meta.owner
                && fact.name == m.vol.src.blocks[h].name
  {
    hide Mutator.Steady, Rooted, FactOf, Tree;
    EntryComment(m, h);
    FactSays(m.vol.src.blocks, m.vol.src.blocks[h]);
  }

  lemma MixesRewrites(f: Format, b: Block, fact: Fact, u: Update)
    requires b.Header?
    ensures Mixes(f, b, fact, u) ==> RewrittenThere(f, b, Remark(fact, u))
  {}

  /** What the states of the two phases show, put together. */
  lemma HalfWayOrNot(f: Format, root: Lba, b: Block, tree: map<Lba, Fact>, h: Lba, u: Update, half: map<Lba, Fact>,
          fin: map<Lba, Fact>, writes: seq<Disk>, first: seq<Disk>, all: seq<Disk>, now: Disk)
    requires h in tree && b.Header? && tree[h].protection == b.meta.protection && tree[h].owner == b.meta.owner
              && |Remark(tree[h], u)| <= COMMENT_MAX
    requires half == if RewrittenThere(f, b, Remark(tree[h], u))
              then tree[h := tree[h].(comment := Remark(tree[h], u))] else tree
    requires fin == half[h := Updated(half[h], u).(comment := Remark(tree[h], u))]
    requires writes <= first <= all && Shown(first, |writes|, f, root, {tree, half})
              && Shown(all, |first|, f, root, {half, fin})
    requires RewrittenThere(f, b, Remark(tree[h], u)) ==>
               && first == writes + [now] && h < |now| && now[h] == b
               && b.note < |now| && now[b.note] == Comment(b.note, h, Remark(tree[h], u))
    ensures fin == tree[h := Updated(tree[h], u)]
    ensures UpdateShown(all, |writes|, f, root, b, tree, h, u, fin)
  {
    hide Shown, HalfWay, NeedsCommentBlock;
    if !Mixes(f, b, tree[h], u) { HalfIsEither(f, b, tree, h, u, half); }
    ShownTwice(first, all, |writes|, f, root, tree, half, fin);
    if RewrittenThere(f, b, Remark(tree[h], u)) {
      assert all[|writes|] == now;
      assert HalfWay(now, h, b, Remark(tree[h], u)) by { TextIsComment(now, b, h, Remark(tree[h], u)); }
    }
  }

  /** The header's write and what follows it. */
  method HeaderAfter(m: Mutator, h: Lba, u: Update, comment: Bytes, note: Lba, ghost d: Disk, ghost s: Shape,
            ghost from: nat) returns (r: Result<(), MutateError>)
    requires m.Valid() && h in m.Entries() && m.NoteReady(h, note) && NoteSays(m.vol.src.blocks, note, comment)
              && m.vol.f.payload > 0
    requires h < |m.vol.src.blocks| && m.vol.src.blocks[h].Header?
    requires note == 0 || note == m.vol.src.blocks[h].note || m.vol.src.blocks[h].note == 0
    requires OthersRead(d, m.vol.f, s, 0, m.vol.src.trail, from)
              && StillThere(d, m.vol.f, s, 0, m.vol.src.blocks, m.shape)
    modifies m, m.vol.src, m.alloc
    ensures m.Valid() && (r.Err? ==> m.vol.f.dircache)
    ensures m.Entries() == old(m.Entries())[h := Updated(old(m.Entries())[h], u).(comment := comment)]
    ensures old(m.vol.src.trail) <= m.vol.src.trail && Shown(m.vol.src.trail, |old(m.vol.src.trail)|, m.vol.f,
              m.vol.root, {old(m.Entries()), m.Entries()})
    ensures OthersRead(d, m.vol.f, s, 0, m.vol.src.trail, from)
              && StillThere(d, m.vol.f, s, 0, m.vol.src.blocks, m.shape)
    ensures r.Ok? && !m.vol.f.dircache ==>
              m.alloc.Free() == old(m.alloc.Free()) + if old(m.vol.src.blocks)[h].note != 0
                  && note == 0 then {old(m.vol.src.blocks)[h].note} else {}
    ensures r.Ok? && m.vol.f.dircache ==> Mirrors(m.vol.src.blocks, m.vol.f, m.shape, old(m.Entries())[h].dir)
  {
    hide Mutator.Steady, Rooted, Tree, Carries, Mutator.Mine, NoteSays,
      OthersRead, StillThere, Shown, Mutator.BeganWith, Began, FactOf, Mirrors;
    ghost var now, t, trail, half := m.vol.src.blocks, m.shape, m.vol.src.trail, m.Entries();
    m.Begin({});
    BeganHere(m, {});
    r := RewriteHeader(m, h, u, comment, note);
    m.ShownSince(now, t, trail, {});
    ShownWider(m.vol.src.trail, |trail|, m.vol.f, m.vol.root, m.views, {half, m.Entries()});
    OthersThen(m, d, s, from, now, t, trail, 0);
  }

  /** An update that does not mix has no tree of its own between its writes. */
  lemma HalfIsEither(f: Format, b: Block, tree: map<Lba, Fact>, h: Lba, u: Update, half: map<Lba, Fact>)
    requires h in tree && b.Header? && tree[h].protection == b.meta.protection && tree[h].owner == b.meta.owner
    requires half == if RewrittenThere(f, b, Remark(tree[h], u))
              then tree[h := tree[h].(comment := Remark(tree[h], u))] else tree
    requires |Remark(tree[h], u)| <= COMMENT_MAX && !Mixes(f, b, tree[h], u)
    ensures half == tree || half == tree[h := Updated(tree[h], u)]
  {
    if Remark(tree[h], u) == tree[h].comment {
      assert tree[h := tree[h].(comment := Remark(tree[h], u))] == tree;
    }
  }

  lemma FactSays(d: Disk, b: Block)
    requires b.Header?
    ensures FactOf(d, b).protection == b.meta.protection && FactOf(d, b).owner == b.meta.owner
              && FactOf(d, b).name == b.name
  {}

  lemma TextIsComment(e: Disk, b: Block, h: Lba, comment: Bytes)
    requires b.Header? && 0 < b.note < |e| && e[b.note] == Comment(b.note, h, comment) && h < |e| && e[h] == b
    ensures HalfWay(e, h, b, comment)
  {}

  /** Two phases, the tree between them being one of the two outer ones or not. */
  lemma ShownTwice(first: seq<Disk>, all: seq<Disk>, from: nat, f: Format, root: Lba, was: map<Lba, Fact>,
          half: map<Lba, Fact>, now: map<Lba, Fact>)
    requires first <= all && Shown(first, from, f, root, {was, half}) && Shown(all, |first|, f, root, {half, now})
    ensures Shown(all, from, f, root, {was, half, now})
    ensures half == was || half == now ==> Shown(all, from, f, root, {was, now})
  {
    hide Shown;
    if half == was || half == now { assert {was, half, now} == {was, now}; }
    ShownWider(first, from, f, root, {was, half}, {was, half, now});
    ShownWider(all, |first|, f, root, {half, now}, {was, half, now});
    ShownOn(first, all, from, f, root, {was, half, now});
  }

  /** The block the new comment may need, written before the header points to it, or in
      place where the header already does. */
  method PrepareText(m: Mutator, h: Lba, comment: Bytes) returns (r: Result<Lba, MutateError>)
    requires m.Valid() && h in m.Entries()
    modifies m`shape, m`rank, m`views, m.vol.src, m.alloc
    ensures m.shape == old(m.shape) && m.rank == old(m.rank) && m.views <= old(m.views) + {m.Entries()}
    ensures m.Valid() && Carries(old(m.vol.src.blocks), m.shape, m.vol.src.blocks, m.shape)
    ensures h < |m.vol.src.blocks| && m.vol.src.blocks[h].Header? && h < |old(m.vol.src.blocks)|
              && m.vol.src.blocks[h] == old(m.vol.src.blocks)[h]
    ensures r.Ok? <==> old(NoteFits(m.vol.f, m.vol.src.blocks, m.alloc.Free(), h, m.vol.src.blocks[h].name, comment))
    ensures r.Err? ==> m.alloc.Free() == old(m.alloc.Free())
    ensures if RewrittenThere(m.vol.f, old(m.vol.src.blocks)[h], comment)
            then var note := old(m.vol.src.blocks)[h].note;
                 && r == Ok(note) && m.vol.src.trail == old(m.vol.src.trail) + [m.vol.src.blocks]
                 && 0 < note < |m.vol.src.blocks| && m.vol.src.blocks[note] == Comment(note, h, comment)
                 && m.Entries() == old(m.Entries())[h := old(m.Entries())[h].(comment := comment)]
            else m.Entries() == old(m.Entries()) && m.views == old(m.views)
    ensures r.Ok? ==> m.NoteReady(h, r.value) && NoteSays(m.vol.src.blocks, r.value, comment)
    ensures r.Ok? ==> (r.value != 0 <==> NeedsCommentBlock(m.vol.f, m.vol.src.blocks[h].name, comment))
    ensures r.Ok? ==> NoteDrawn(old(m.alloc.Free()), m.alloc.Free(), m.vol.src.blocks[h].note, r.value)
    ensures r.Ok? ==> r.value == 0 || r.value == m.vol.src.blocks[h].note || m.vol.src.blocks[h].note == 0
  {
    hide Mutator.Ready, Orderly, Mutation.Kept, Rooted, Tree, Mutator.Mine, Carries, FactOf;
    CarriesItself(m.vol.src.blocks, m.shape);
    EntryBlock(m, h);
    EntryComment(m, h);
    ghost var d := m.vol.src.blocks;
    var b := m.vol.src.blocks[h];
    if !NeedsCommentBlock(m.vol.f, b.name, comment) {
      return Ok(0);
    }
    if b.note != 0 {
      m.PutText(h, Comment(b.note, h, comment));
      OtherText(d, h, comment);
      return Ok(b.note);
    }
    var cb := m.TakeBlock(h);
    if cb.Err? {
      return Err(cb.error);
    }
    ghost var e := m.vol.src.blocks;
    m.MineFacts(cb.value);
    m.PutLoose(cb.value, Comment(cb.value, h, comment));
    CarriesOn(d, m.shape, e, m.shape, m.vol.src.blocks, m.shape);
    EntryBlock(m, h);
    r := Ok(cb.value);
  }

  lemma OtherText(d: Disk, h: Lba, comment: Bytes)
    requires h < |d| && d[h].Header? && 0 < d[h].note < |d| && d[d[h].note].Comment?
    ensures FactOf(d[d[h].note := Comment(d[h].note, h, comment)], d[h]) == FactOf(d, d[h]).(comment := comment)
  {}

  method RewriteHeader(m: Mutator, h: Lba, u: Update, comment: Bytes, note: Lba) returns (r: Result<(), MutateError>)
    requires m.Valid() && h in m.Entries() && m.NoteReady(h, note) && NoteSays(m.vol.src.blocks, note, comment)
    requires h < |m.vol.src.blocks| && m.vol.src.blocks[h].Header?
    requires note == 0 || note == m.vol.src.blocks[h].note || m.vol.src.blocks[h].note == 0
    modifies m`live, m`shape, m`rank, m`views, m.vol.src, m.alloc
    ensures m.Valid() && (r.Err? ==> m.vol.f.dircache) && m.views == old(m.views) + {m.Entries()}
              && m.rank == old(m.rank)
    ensures m.Entries() == old(m.Entries())[h := Updated(old(m.Entries())[h], u).(comment := comment)]
    ensures Carries(old(m.vol.src.blocks), old(m.shape), m.vol.src.blocks, m.shape)
    ensures r.Ok? && !m.vol.f.dircache ==>
              m.alloc.Free() == old(m.alloc.Free()) + if old(m.vol.src.blocks)[h].note != 0
                  && note == 0 then {old(m.vol.src.blocks)[h].note} else {}
    ensures r.Ok? && m.vol.f.dircache ==> Mirrors(m.vol.src.blocks, m.vol.f, m.shape, old(m.Entries())[h].dir)
  {
    hide Mutator.Ready, Orderly, Mutation.Kept, Rooted, Tree, Mutator.Mine, Carries, FactOf, Mutator.NoteReady,
      Mutator.Spent, Grown, IsFolder, Mirrors;
    ParentIs(m, h);
    ghost var d, s, tree := m.vol.src.blocks, m.shape, m.Entries();
    var was := m.vol.src.blocks[h].note;
    var parent := m.vol.src.blocks[h].parent;
    EntryComment(m, h);
    ParentIsFolder(m, h);
    var c := Rewritten(m.vol.src.blocks[h], u, comment, note);
    RewrittenFact(d, h, u, comment, note);
    m.RootFacts();
    m.Reword(h, c);
    ghost var e, t := m.vol.src.blocks, m.shape;
    m.RootFacts();
    RenotedRoot(s, h, was, note);
    FolderReworded(m, d, s, h, parent);
    r := FollowUp(m, parent, was, note);
    CarriesOn(d, s, e, t, m.vol.src.blocks, m.shape);
  }

  lemma ParentIs(m: Mutator, h: Lba)
    requires m.Valid() && h in m.Entries()
    ensures h < |m.vol.src.blocks| && m.vol.src.blocks[h].Header? && m.vol.src.blocks[h].parent == m.Entries()[h].dir
  {
    hide Mutator.Valid;
  }

  /** After the header: the dropped comment block given back, the cache, the bitmap, the count. */
  method FollowUp(m: Mutator, parent: Lba, was: Lba, note: Lba) returns (r: Result<(), MutateError>)
    requires m.Valid() && IsFolder(m.vol.src.blocks, m.shape, parent) && m.DroppedIsSpent(was, note)
    modifies m`live, m`shape, m.vol.src, m.alloc
    ensures m.Valid() && m.Entries() == old(m.Entries()) && (r.Err? ==> m.vol.f.dircache)
    ensures Carries(old(m.vol.src.blocks), old(m.shape), m.vol.src.blocks, m.shape)
    ensures r.Ok? && !m.vol.f.dircache ==>
              m.alloc.Free() == old(m.alloc.Free()) + if was != 0 && note == 0 then {was} else {}
    ensures r.Ok? && m.vol.f.dircache ==> Mirrors(m.vol.src.blocks, m.vol.f, m.shape, parent)
  {
    hide Mutator.Steady, Rooted, Tree, Carries, Mutator.Spent, Grown, IsFolder, Mirrors;
    ghost var d, s := m.vol.src.blocks, m.shape;
    m.RootFacts();
    if was != 0 && note == 0 {
      var freed := m.FreeAll([was]);
      assert SetOf([was]) == {was};
    }
    r := m.RefreshDircache(parent);
    if r.Err? {
      return;
    }
    ghost var e := m.vol.src.blocks;
    m.RootFacts();
    Mutator.FolderStays(d, s, e, m.shape, parent);
    m.PagesNow();
    m.FlushBitmap();
    CarriesOn(d, s, e, m.shape, m.vol.src.blocks, m.shape);
    ghost var e2 := m.vol.src.blocks;
    m.RootFacts();
    m.StampBlocksUsed();
    CarriesOn(d, s, e2, m.shape, m.vol.src.blocks, m.shape);
    if m.vol.f.dircache { MirrorsToTheEnd(m, e, e2, parent); }
  }

  lemma RewrittenFact(d: Disk, h: Lba, u: Update, comment: Bytes, note: Lba)
    requires h < |d| && d[h].Header? && NoteSays(d, note, comment)
    ensures Reworded(d[h], Rewritten(d[h], u, comment, note))
    ensures FactOf(d[h := Rewritten(d[h], u, comment, note)], Rewritten(d[h], u, comment, note)) ==
              Updated(FactOf(d, d[h]), u).(comment := comment)
  {}

  lemma ParentIsFolder(m: Mutator, h: Lba)
    requires m.Valid() && h in m.Entries()
    ensures h < |m.vol.src.blocks| && m.vol.src.blocks[h].Header? && IsEntry(m.shape, h)
    ensures IsFolder(m.vol.src.blocks, m.shape, m.vol.src.blocks[h].parent)
  {
    hide Mutator.Ready, Mutation.Kept, Climbs, Named;
    ParentIsDirectory(m.vol.src.blocks, m.shape, h);
  }

  lemma FolderReworded(m: Mutator, d: Disk, s: Shape, h: Lba, dir: Lba)
    requires m.Valid() && Grown(d, s) && s.root == m.shape.root && IsFolder(d, s, dir) && h in Tree(d, s)
    requires m.Entries().Keys == Tree(d, s).Keys && m.Entries()[h].kind == Tree(d, s)[h].kind
    requires forall y :: y in Tree(d, s) && y != h ==> m.Entries()[y] == Tree(d, s)[y]
    ensures IsFolder(m.vol.src.blocks, m.shape, dir)
  {
    hide Mutator.Ready, Mutation.Kept, Named, Rooted;
    FolderInTree(d, s, dir);
    FolderInTree(m.vol.src.blocks, m.shape, dir);
  }
}
