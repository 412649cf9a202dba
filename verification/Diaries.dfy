/**
 A diary: one script in full. A file is created, added to twice and renamed; when that works
 out can be told beforehand, and what it leaves is told from the worlds alone.
 */
module Diaries {
  import opened Disk
  import opened Names
  import opened Steps
  import opened Mutation
  import opened Creation
  import opened Drafting
  import opened Survival
  import opened Edits
  import opened Worlds
  import opened Sessions

  /** A file created in the root, added to twice and given another name. */
  function Diary(name: Bytes, meta: Meta, data: Bytes, more: Bytes, yetMore: Bytes, newName: Bytes): seq<Command> {
    [NewFile([], name, [], meta, data), Extend([], name, more), Extend([], name, yetMore),
        Command.Move([], name, [], newName)]
  }

  lemma OnlyNewcomer(was: map<Lba, Fact>, h: Lba, fact: Fact, intl: bool, dir: Lba, name: Bytes, k: Lba)
    requires Absent(was, intl, dir, name) && Filed(was[h := fact], intl, dir, name, k)
    ensures k == h
  {
    hide SameName;
  }

  lemma MeansInRoot(w: World, f: Format, root: Lba, name: Bytes, h: Lba)
    requires Means(w, f, root, [], name, h)
    ensures Filed(w.tree, f.intl, root, name, h)
  {
    hide SameName;
  }

  lemma DiaryFollows(f: Format, root: Lba, script: seq<Command>, done: seq<bool>, worlds: seq<World>)
    requires Plays(f, root, script, done, worlds) && done == [true, true, true, true] && |script| == 4
    ensures |worlds| == 5 && forall j :: 0 <= j < 4 ==> Follows(f, root, worlds[j], script[j], true, worlds[j + 1])
  {
    hide Follows;
  }

  /** `now` is `was` and one more entry of the root, the file `h`, whose name was free; it has
      no comment. */
  ghost predicate OneMore(f: Format, root: Lba, was: World, h: Lba, name: Bytes, now: World) {
    && h !in was.tree && Absent(was.tree, f.intl, root, name) && h in now.tree && now.tree == was.tree[h := now.tree[h]]
    && h in now.files && now.files == was.files[h := now.files[h]]
    && Filed(now.tree, f.intl, root, name, h) && now.tree[h].kind.File? && now.tree[h].comment == []
  }

  lemma Begun(f: Format, root: Lba, w: World, c: Command, v: World) returns (h: Lba)
    requires c.NewFile? && c.dir == [] && c.note == [] && Follows(f, root, w, c, true, v)
    ensures OneMore(f, root, w, h, c.name, v) && v.files[h] == c.data
  {
    SelfSame(c.name, f.intl);
    hide SameName;
    h :| Does(f, root, w, c, h, v);
  }

  lemma Grows(f: Format, root: Lba, was: World, h: Lba, w: World, c: Command, v: World)
    requires c.Extend? && c.dir == [] && OneMore(f, root, was, h, c.name, w) && Follows(f, root, w, c, true, v)
    ensures OneMore(f, root, was, h, c.name, v) && v.files[h] == w.files[h] + c.data
  {
    hide SameName;
    var k :| Does(f, root, w, c, k, v);
    MeansInRoot(w, f, root, c.name, k);
    OnlyNewcomer(was.tree, h, w.tree[h], f.intl, root, c.name, k);
  }

  lemma Renamed(f: Format, root: Lba, was: World, h: Lba, w: World, c: Command, v: World)
    requires c.Move? && c.dir == [] && c.newDir == [] && OneMore(f, root, was, h, c.name, w)
              && Follows(f, root, w, c, true, v)
    ensures v.files == w.files && v.tree - {h} == was.tree && Filed(v.tree, f.intl, root, c.newName, h)
  {
    SelfSame(c.newName, f.intl);
    hide SameName;
    var k :| Does(f, root, w, c, k, v);
    MeansInRoot(w, f, root, c.name, k);
    OnlyNewcomer(was.tree, h, w.tree[h], f.intl, root, c.name, k);
  }

  lemma SelfSame(name: Bytes, intl: bool)
    ensures SameName(name, name, intl)
  {}

  /** Where all four succeed, the file is there under its new name with all that was put in
      it, and of everything else nothing has changed. */
  lemma DiaryKept(f: Format, root: Lba, name: Bytes, meta: Meta, data: Bytes, more: Bytes, yetMore: Bytes,
          newName: Bytes, done: seq<bool>, worlds: seq<World>)
    requires Plays(f, root, Diary(name, meta, data, more, yetMore, newName), done, worlds)
              && done == [true, true, true, true]
    ensures exists h :: h !in worlds[0].tree && Filed(worlds[4].tree, f.intl, root, newName, h)
                        && worlds[4].files == worlds[0].files[h := data + more + yetMore]
                            && worlds[4].tree - {h} == worlds[0].tree
  {
    var script := Diary(name, meta, data, more, yetMore, newName);
    hide SameName, Plays, Follows, Does;
    DiaryFollows(f, root, script, done, worlds);
    var h := Begun(f, root, worlds[0], script[0], worlds[1]);
    Grows(f, root, worlds[0], h, worlds[1], script[1], worlds[2]);
    Grows(f, root, worlds[0], h, worlds[2], script[2], worlds[3]);
    Renamed(f, root, worlds[0], h, worlds[3], script[3], worlds[4]);
    assert worlds[4].files == worlds[0].files[h := data + more + yetMore];
  }

  /** An append of `more` bytes to a file of `was` can be recorded and finds its blocks. */
  ghost predicate Appends(f: Format, layoutPolicy: bool, was: nat, more: nat, free: int)
    requires f.payload > 0 && f.slots > 0
  {
    was + more <= MAX_SIZE && Draws(f, layoutPolicy, was, was, more, was + more) <= free
  }

  /** What a diary of `a`, `b` and `c` bytes needs: two legal names that are free in the root,
      lengths that can be recorded, and at each step the blocks, counted beforehand. */
  ghost predicate DiaryFits(f: Format, layoutPolicy: bool, root: Lba, w: World, name: Bytes, newName: Bytes, a: nat,
          b: nat, c: nat, free: nat)
    requires f.payload > 0 && f.slots > 0
  {
    var header := HeaderBlocks(f, name, []);
    && NameOk(name, MaxName(f)) && NameOk(newName, MaxName(f))
    && Absent(w.tree, f.intl, root, name) && Absent(w.tree, f.intl, root, newName)
    && header + Footprint(f, a) <= free
    && Appends(f, layoutPolicy, a, b, free - header - Footprint(f, a))
    && Appends(f, layoutPolicy, a + b, c, free - header - Footprint(f, a + b))
  }

  lemma OnlyRoot(f: Format, root: Lba, w: World)
    ensures forall x :: Found(f, root, w, [], x) <==> x == root
  {}

  /** The first command succeeds exactly when the name and the blocks are there. */
  lemma BeginsIff(f: Format, layoutPolicy: bool, root: Lba, w: World, c: Command, ok: bool, v: World, x: Snapshot,
          y: Snapshot)
    requires f.payload > 0 && f.slots > 0 && !f.dircache && c.NewFile? && c.dir == [] && c.note == []
    requires Accounts(f, layoutPolicy, root, w, c, ok, v, x, y)
    ensures ok <==> NameOk(c.name, MaxName(f)) && Absent(w.tree, f.intl, root, c.name) && Takes(f, c) <= |x.free|
    ensures ok ==> |y.free| == |x.free| - Takes(f, c)
  {
    OnlyRoot(f, root, w);
    hide Found, NameOk, Absent, Takes, Does;
  }

  lemma FileInRoot(f: Format, root: Lba, was: World, h: Lba, w: World, name: Bytes, k: Lba)
    requires OneMore(f, root, was, h, name, w)
    ensures Filed(w.tree, f.intl, root, name, k) <==> k == h
  {
    hide SameName;
    if Filed(w.tree, f.intl, root, name, k) { OnlyNewcomer(was.tree, h, w.tree[h], f.intl, root, name, k); }
  }

  /** The next two exactly when the file can grow. */
  lemma GrowsIff(f: Format, layoutPolicy: bool, root: Lba, was: World, h: Lba, w: World, c: Command, ok: bool,
          v: World, x: Snapshot, y: Snapshot)
    requires f.payload > 0 && f.slots > 0 && !f.dircache && c.Extend? && c.dir == [] && |c.name| <= MaxName(f)
    requires OneMore(f, root, was, h, c.name, w) && Accounts(f, layoutPolicy, root, w, c, ok, v, x, y)
    ensures ok <==> Appends(f, layoutPolicy, |w.files[h]|, |c.data|, |x.free|)
    ensures ok ==> |y.free| == |x.free| + Footprint(f, |w.files[h]|) - Footprint(f, |w.files[h]| + |c.data|)
  {
    OnlyRoot(f, root, w);
    forall k
      ensures Filed(w.tree, f.intl, root, c.name, k) <==> k == h
    {
      FileInRoot(f, root, was, h, w, c.name, k);
    }
    hide Found, Filed, Draws, Footprint;
    assert forall k :: Editable(f, root, w, c, k) <==> k == h && |Made(c, w.files[h])| <= MAX_SIZE;
    if ok {
      var k :| Does(f, root, w, c, k, v) && Costs(f, w, c, k, x, y);
      MeansInRoot(w, f, root, c.name, k);
    }
  }

  /** And the last exactly when the new name is legal and free. */
  lemma MovesIff(f: Format, layoutPolicy: bool, root: Lba, was: World, h: Lba, w: World, c: Command, ok: bool,
          v: World, x: Snapshot, y: Snapshot)
    requires f.payload > 0 && f.slots > 0 && !f.dircache && c.Move? && c.dir == [] && c.newDir == []
              && |c.name| <= MaxName(f)
    requires OneMore(f, root, was, h, c.name, w) && Accounts(f, layoutPolicy, root, w, c, ok, v, x, y)
    ensures ok <==> NameOk(c.newName, MaxName(f)) && Absent(was.tree, f.intl, root, c.newName)
  {
    OnlyRoot(f, root, w);
    forall k
      ensures Filed(w.tree, f.intl, root, c.name, k) <==> k == h
    {
      FileInRoot(f, root, was, h, w, c.name, k);
    }
    assert w.tree - {h} == was.tree;
    if NameOk(c.newName, MaxName(f)) { NoNote(f, c.newName); }
    hide Found, Filed, Absent, Within;
  }

  lemma NoNote(f: Format, name: Bytes)
    requires NameOk(name, MaxName(f))
    ensures !NeedsCommentBlock(f, name, [])
  {}

  /** The diary can be kept exactly when it fits. */
  lemma DiaryDecides(f: Format, layoutPolicy: bool, root: Lba, name: Bytes, meta: Meta, data: Bytes, more: Bytes,
          yetMore: Bytes, newName: Bytes, done: seq<bool>, worlds: seq<World>, moments: seq<Snapshot>)
    requires f.payload > 0 && f.slots > 0 && !f.dircache && |done| == 4
    requires Plays(f, root, Diary(name, meta, data, more, yetMore, newName), done, worlds) && |moments| == 5
    requires AllAccounted(f, layoutPolicy, root, Diary(name, meta, data, more, yetMore, newName), done, worlds, moments)
    ensures done == [true, true, true, true] <==>
              DiaryFits(f, layoutPolicy, root, worlds[0], name, newName, |data|, |more|, |yetMore|, |moments[0].free|)
  {
    var script := Diary(name, meta, data, more, yetMore, newName);
    hide SameName, Follows, Accounts, Images, NameOk, Absent, Footprint, HeaderBlocks, Appends;
    BeginsIff(f, layoutPolicy, root, worlds[0], script[0], done[0], worlds[1], moments[0], moments[1]);
    if done[0] {
      NamesFit(name, f);
      var h := Begun(f, root, worlds[0], script[0], worlds[1]);
      GrowsIff(f, layoutPolicy, root, worlds[0], h, worlds[1], script[1], done[1], worlds[2], moments[1], moments[2]);
      if done[1] {
        Grows(f, root, worlds[0], h, worlds[1], script[1], worlds[2]);
        GrowsIff(f, layoutPolicy, root, worlds[0], h, worlds[2], script[2], done[2], worlds[3], moments[2], moments[3]);
        if done[2] {
          Grows(f, root, worlds[0], h, worlds[2], script[2], worlds[3]);
          MovesIff(f, layoutPolicy, root, worlds[0], h, worlds[3], script[3], done[3], worlds[4], moments[3],
              moments[4]);
        }
      }
    }
  }

  lemma NamesFit(name: Bytes, f: Format)
    requires NameOk(name, MaxName(f))
    ensures |name| <= MaxName(f)
  {}

  /** The same, run: on a volume without caches it is kept exactly when it fits. */
  method KeepDiary(m: Mutator, name: Bytes, meta: Meta, data: Bytes, more: Bytes, yetMore: Bytes, newName: Bytes,
          ghost w: World) returns (ok: bool)
    requires m.Valid() && Models(m, w) && |data| <= MAX_SIZE
    modifies m, m.vol.src, m.alloc
    ensures m.Valid() && m.vol.f.payload > 0 && m.vol.f.slots > 0
    ensures !m.vol.f.dircache ==>
              (ok <==> DiaryFits(m.vol.f, m.layoutPolicy, m.vol.root, w, name, newName, |data|, |more|, |yetMore|,
                  |old(m.alloc.Free())|))
    ensures ok ==> exists h ::
              h !in w.tree && Filed(m.Entries(), m.vol.f.intl, m.vol.root, newName, h)
              && Stored(m.vol.src.blocks, m.vol.f, h, data + more + yetMore)
  {
    hide Mutator.Valid, Follows, AllLeft, AllAccounted, Stored, Tree, SameName, Safe, DiaryFits;
    OrderlyNow(m);
    var done;
    ghost var worlds, moments, marks;
    done, worlds, moments, marks := RunScript(m, Diary(name, meta, data, more, yetMore, newName), w);
    ok := done[0] && done[1] && done[2] && done[3];
    assert ok <==> done == [true, true, true, true];
    if !m.vol.f.dircache {
      DiaryDecides(m.vol.f, m.layoutPolicy, m.vol.root, name, meta, data, more, yetMore, newName, done, worlds,
          moments);
    }
    if ok {
      DiaryKept(m.vol.f, m.vol.root, name, meta, data, more, yetMore, newName, done, worlds);
      ghost var h :| h !in w.tree && Filed(worlds[4].tree, m.vol.f.intl, m.vol.root, newName, h)
          && worlds[4].files == w.files[h := data + more + yetMore];
      assert h in worlds[4].files;
      ModelsTree(m, worlds[4]);
    }
  }
}
