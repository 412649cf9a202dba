/**
 Worlds: what a user sees of a volume, the commands that take one world to the next, what a
 crash may leave of one, and when a command succeeds.
 */
module Worlds {
  import opened Disk
  import opened Forest
  import opened Reader
  import opened Steps
  import opened Creation
  import opened Contents
  import opened Drafting
  import opened Survival
  import opened Edits
  import opened Removal
  import opened Renaming
  import opened Compaction
  import opened Paths

  // ---- Worlds ----------------------------------------------------------------------------------

  /** What a user sees of a volume: its entries, and what is in its files. */
  datatype World = World(tree: map<Lba, Fact>, files: map<Lba, Bytes>)

  function FilesOf(tree: map<Lba, Fact>): set<Lba> {
    set k | k in tree && tree[k].kind.File?
  }

  /** A reader of the disk sees the world. */
  ghost predicate Realises(e: Disk, f: Format, root: Lba, x: World)
    requires f.payload > 0
  {
    Shows(e, f, root, x.tree) && forall k :: k in x.files ==> FileIs(e, f, k, x.files[k])
  }

  /** And the next edit of any of its files is possible. */
  ghost predicate Images(d: Disk, f: Format, s: Shape, w: World)
    requires f.payload > 0
  {
    && w.tree == Tree(d, s) && w.files.Keys == FilesOf(w.tree)
    && forall k :: k in w.files ==> s.Owns(k) && k != 0 && Stored(d, f, k, w.files[k])
  }

  // ---- Commands ----------------------------------------------------------------------------------

  datatype Command =
    | NewFolder(dir: Path, name: Bytes, note: Bytes, meta: Meta)
    | NewFile(dir: Path, name: Bytes, note: Bytes, meta: Meta, data: Bytes)
    | NewSoftLink(dir: Path, name: Bytes, note: Bytes, meta: Meta, path: Bytes)
    | NewHardLink(dir: Path, name: Bytes, note: Bytes, meta: Meta, target: Path)
    | WriteAt(dir: Path, name: Bytes, offset: nat, data: Bytes)
    | Extend(dir: Path, name: Bytes, data: Bytes)
    | Resize(dir: Path, name: Bytes, size: nat)
    | Move(dir: Path, name: Bytes, newDir: Path, newName: Bytes)
    | Describe(what: Path, update: Update)
    | Remove(dir: Path, name: Bytes)
    | Tidy(what: Path)

  /** The one thing asked of a script: no file is created longer than its header can say. */
  predicate Sane(c: Command) {
    c.NewFile? ==> |c.data| <= MAX_SIZE
  }

  predicate IsCreate(c: Command) {
    c.NewFolder? || c.NewFile? || c.NewSoftLink? || c.NewHardLink?
  }

  predicate IsEdit(c: Command) {
    c.WriteAt? || c.Extend? || c.Resize?
  }

  /** What command `c`, an edit, is to make of `s`. */
  function Made(c: Command, s: Bytes): Bytes
    requires IsEdit(c)
  {
    match c
    case WriteAt(_, _, offset, data) => Edited(s, offset, data, Max(|s|, offset + |data|))
    case Extend(_, _, data) => s + data
    case Resize(_, _, size) => Resized(s, size)
  }

  ghost predicate Means(w: World, f: Format, root: Lba, dir: Path, name: Bytes, h: Lba) {
    exists x :: Leads(w.tree, f.intl, root, dir, x) && Filed(w.tree, f.intl, x, name, h)
  }

  /** `now` is `was` with the new entry `h` in the directory `dir` leads to. */
  ghost predicate Enters(was: map<Lba, Fact>, f: Format, root: Lba, dir: Path, fact: Fact, h: Lba, now: map<Lba,
          Fact>) {
    exists x :: Leads(was, f.intl, root, dir, x) && Created(was, now, h, fact.(dir := x), f.intl)
  }

  function FactFor(c: Command, kind: Kind, link: Lba, path: Bytes): Fact
    requires IsCreate(c)
  {
    Fact(0, c.name, kind, c.meta.protection, c.meta.owner, c.note, link, path)
  }

  /** Command `c` takes `w` to `v`, and is about the entry `h`. */
  ghost predicate Does(f: Format, root: Lba, w: World, c: Command, h: Lba, v: World) {
    match c
    case NewFolder(dir, _, _, _) => Enters(w.tree, f, root, dir, FactFor(c, Directory, 0, []), h, v.tree)
        && v.files == w.files
    case NewFile(dir, _, _, _, data) => Enters(w.tree, f, root, dir, FactFor(c, File, 0, []), h, v.tree)
        && v.files == w.files[h := data]
    case NewSoftLink(dir, _, _, _, path) => Enters(w.tree, f, root, dir, FactFor(c, SoftLink, 0, path), h, v.tree)
        && v.files == w.files
    case NewHardLink(dir, _, _, _, target) =>
      && v.files == w.files
      && exists t :: Leads(w.tree, f.intl, root, target, t) && Linkable(w.tree, t)
                     && Enters(w.tree, f, root, dir, FactFor(c, LinkKind(w.tree[t].kind), t, []), h, v.tree)
    case WriteAt(dir, name, _, _) => Means(w, f, root, dir, name, h) && h in w.files
        && Rewrites(w, h, Made(c, w.files[h]), v)
    case Extend(dir, name, _) => Means(w, f, root, dir, name, h) && h in w.files
        && Rewrites(w, h, Made(c, w.files[h]), v)
    case Resize(dir, name, _) => Means(w, f, root, dir, name, h) && h in w.files
        && Rewrites(w, h, Made(c, w.files[h]), v)
    case Move(dir, name, newDir, newName) =>
      && Means(w, f, root, dir, name, h) && v.files == w.files
      && exists x :: Leads(w.tree, f.intl, root, newDir, x)
          && v.tree == w.tree[h := w.tree[h].(dir := x, name := newName)]
    case Describe(what, u) => Leads(w.tree, f.intl, root, what, h) && h in w.tree
        && v == World(w.tree[h := Updated(w.tree[h], u)], w.files)
    case Remove(dir, name) => Means(w, f, root, dir, name, h) && v == World(w.tree - {h}, w.files - {h})
    case Tidy(what) => Leads(w.tree, f.intl, root, what, h) && h in w.files && v == w
  }

  predicate Rewrites(w: World, h: Lba, u: Bytes, v: World) {
    h in w.files && v == World(w.tree, w.files[h := u])
  }

  /** How many blocks of a file of `was` bytes a write keeps in their places. */
  function KeptBy(f: Format, layoutPolicy: bool, c: Command, was: nat): nat
    requires IsEdit(c) && f.payload > 0
  {
    if c.WriteAt? then Chosen(f, layoutPolicy, was, c.offset, |c.data|, Max(was, c.offset + |c.data|)).kept else 0
  }

  /** File `h` of `w` torn by `c`: the first few of the blocks it keeps have been rewritten.
      A rewrite of the whole file keeps none under the layout policy and tears nothing. */
  ghost predicate Tears(f: Format, layoutPolicy: bool, w: World, c: Command, h: Lba, x: World)
    requires f.payload > 0
  {
    && c.WriteAt? && h in w.files
    && exists i, n :: 0 <= i <= KeptBy(f, layoutPolicy, c, |w.files[h]|) && n >= 0 && StartsAt(n, i, f.payload)
                      && x == World(w.tree, w.files[h :=
                          Torn(w.files[h], Overlaid(w.files[h], Made(c, w.files[h])), n)])
  }

  /** What is to be seen while `c` takes `w` to `v`, beside `w`: `v` itself; for a write, the
      file torn between two of its blocks; for a move, the tree without the entry; for an
      update, the new comment alone. */
  ghost predicate Midway(f: Format, layoutPolicy: bool, w: World, c: Command, h: Lba, v: World, x: World)
    requires f.payload > 0
  {
    || x == v
    || Tears(f, layoutPolicy, w, c, h, x)
    || (c.Move? && x == World(w.tree - {h}, w.files))
    || (c.Describe? && h in w.tree && x == World(w.tree[h := w.tree[h].(comment := Remark(w.tree[h], c.update))],
        w.files))
  }

  /** A command that succeeds does what its name says; one that fails does nothing, unless it
      is only the directory cache that could not follow. */
  ghost predicate Follows(f: Format, root: Lba, w: World, c: Command, ok: bool, v: World) {
    if ok then exists h :: Does(f, root, w, c, h, v)
    else v == w || (f.dircache && exists h :: Does(f, root, w, c, h, v))
  }

  /** What a crash in the middle of `c` may leave. */
  ghost predicate Left(f: Format, layoutPolicy: bool, root: Lba, w: World, c: Command, e: Disk)
    requires f.payload > 0
  {
    || Realises(e, f, root, w)
    || exists h, v, x :: Does(f, root, w, c, h, v) && Midway(f, layoutPolicy, w, c, h, v, x) && Realises(e, f, root, x)
  }

  /** `c` ran, from `w` to `v`, leaving the states in `after` beyond `before`. */
  ghost predicate Went(f: Format, layoutPolicy: bool, root: Lba, w: World, c: Command, ok: bool, v: World,
          before: seq<Disk>, after: seq<Disk>)
    requires f.payload > 0
  {
    && before <= after && Follows(f, root, w, c, ok, v)
    && forall i :: |before| <= i < |after| ==> Left(f, layoutPolicy, root, w, c, after[i])
  }

  lemma Stays(f: Format, layoutPolicy: bool, root: Lba, w: World, c: Command, trail: seq<Disk>)
    requires f.payload > 0
    ensures Went(f, layoutPolicy, root, w, c, false, w, trail, trail)
  {}

  // ---- When a command succeeds ---------------------------------------------------------------------------

  /** The directory of the command can be found, and is `x`. */
  ghost predicate Found(f: Format, root: Lba, w: World, dir: Path, x: Lba) {
    Leads(w.tree, f.intl, root, dir, x) && !Stuck(w.tree, f, root, root, dir)
  }

  /** There is a directory for the new entry, its name and comment are legal and the name
      is free. */
  ghost predicate Enterable(f: Format, root: Lba, w: World, c: Command)
    requires IsCreate(c)
  {
    && NameOk(c.name, MaxName(f)) && |c.note| <= COMMENT_MAX
    && exists x :: Found(f, root, w, c.dir, x) && IsDir(w.tree, root, x) && Absent(w.tree, f.intl, x, c.name)
  }

  /** The blocks a create takes. */
  function Takes(f: Format, c: Command): nat
    requires IsCreate(c) && f.payload > 0 && f.slots > 0
  {
    HeaderBlocks(f, c.name, c.note) + if c.NewFile? then Footprint(f, |c.data|) else 0
  }

  /** The blocks an edit of a file of `was` bytes has to draw. */
  function DrawsOf(f: Format, layoutPolicy: bool, c: Command, was: nat): nat
    requires IsEdit(c) && f.payload > 0 && f.slots > 0
  {
    match c
    case WriteAt(_, _, offset, data) => Draws(f, layoutPolicy, was, offset, |data|, Max(was, offset + |data|))
    case Extend(_, _, data) => Draws(f, layoutPolicy, was, was, |data|, was + |data|)
    case Resize(_, _, size) => Draws(f, layoutPolicy, was, size, 0, size)
  }

  /** The name is that of file `h`, and the new length can be recorded. */
  ghost predicate Editable(f: Format, root: Lba, w: World, c: Command, h: Lba)
    requires IsEdit(c)
  {
    && |c.name| <= MaxName(f) && h in w.files && |Made(c, w.files[h])| <= MAX_SIZE
    && exists x :: Found(f, root, w, c.dir, x) && Filed(w.tree, f.intl, x, c.name, h)
  }

  /** The volume at some moment: its blocks, what hangs off what, and what is free. */
  datatype Snapshot = Snapshot(blocks: Disk, shape: Shape, free: set<Lba>)

  /** Nothing but a want of blocks can refuse `c`, a command that draws any number of them. */
  ghost predicate Proper(f: Format, root: Lba, w: World, c: Command) {
    match c
    case NewFolder(_, _, _, _) => Enterable(f, root, w, c)
    case NewFile(_, _, _, _, _) => Enterable(f, root, w, c)
    case NewSoftLink(_, _, _, _, path) => PathOk(f, path) && Enterable(f, root, w, c)
    case NewHardLink(_, _, _, _, target) => Enterable(f, root, w, c) &&
        exists t :: Found(f, root, w, target, t) && Linkable(w.tree, t)
    case WriteAt(_, _, _, _) => exists h :: Editable(f, root, w, c, h)
    case Extend(_, _, _) => exists h :: Editable(f, root, w, c, h)
    case Resize(_, _, _) => exists h :: Editable(f, root, w, c, h)
    case Tidy(what) => exists h :: Found(f, root, w, what, h) && h in w.files
    case _ => false
  }

  /** When `c` succeeds on a volume without caches, as the world and the free blocks have it;
      for the last four the world does not tell it all: whether a comment has a block already,
      what hangs off an entry and how a file lies on the disk is for the blocks to say. */
  ghost predicate Allows(f: Format, layoutPolicy: bool, root: Lba, w: World, x: Snapshot, c: Command)
    requires f.payload > 0 && f.slots > 0
  {
    match c
    case Move(dir, name, newDir, newName) =>
        exists h :: Movable(f, root, w, c, h) && NoteFits(f, x.blocks, x.free, h, newName, w.tree[h].comment)
    case Describe(what, u) => exists h :: Found(f, root, w, what, h) && Describable(f, w, x, h, u)
    case Remove(dir, name) => exists y :: Found(f, root, w, dir, y) && MayUnlink(f, x.blocks, x.shape, y, name)
    case Tidy(what) => exists h :: Found(f, root, w, what, h) && Tidiable(f, w, x, h)
    case WriteAt(_, _, _, _) =>
        exists h :: Editable(f, root, w, c, h) && DrawsOf(f, layoutPolicy, c, |w.files[h]|) <= |x.free|
    case Extend(_, _, _) =>
        exists h :: Editable(f, root, w, c, h) && DrawsOf(f, layoutPolicy, c, |w.files[h]|) <= |x.free|
    case Resize(_, _, _) =>
        exists h :: Editable(f, root, w, c, h) && DrawsOf(f, layoutPolicy, c, |w.files[h]|) <= |x.free|
    case _ => Proper(f, root, w, c) && Takes(f, c) <= |x.free|
  }

  /** Entry `h` is the one to move, and may go where the command says: into a directory that is
      not in the entry itself and has no other of the name. */
  ghost predicate Movable(f: Format, root: Lba, w: World, c: Command, h: Lba)
    requires c.Move?
  {
    && |c.name| <= MaxName(f) && NameOk(c.newName, MaxName(f)) && h in w.tree
    && (exists x :: Found(f, root, w, c.dir, x) && Filed(w.tree, f.intl, x, c.name, h))
    && exists y ::
         Found(f, root, w, c.newDir, y) && IsDir(w.tree, root, y) && Absent(w.tree - {h}, f.intl, y, c.newName)
         && (w.tree[h].kind.Directory? ==> !Within(w.tree, root, y, h))
  }

  /** Directory `h` is `dir`, or on the way from it up to the root. */
  ghost predicate Within(tree: map<Lba, Fact>, root: Lba, dir: Lba, h: Lba) {
    exists up :: Ascends(tree, root, dir, up) && h in up
  }

  ghost predicate Ascends(tree: map<Lba, Fact>, root: Lba, dir: Lba, up: seq<Lba>) {
    && |up| > 0 && up[0] == dir && up[|up| - 1] == root
    && forall i :: 0 <= i < |up| - 1 ==> InFolder(tree, root, up[i], up[i + 1])
  }

  predicate InFolder(tree: map<Lba, Fact>, root: Lba, x: Lba, y: Lba) {
    x in tree && tree[x].dir == y && IsDir(tree, root, y)
  }

  ghost predicate Describable(f: Format, w: World, x: Snapshot, h: Lba, u: Update) {
    h in w.tree && |Remark(w.tree[h], u)| <= COMMENT_MAX
        && NoteFits(f, x.blocks, x.free, h, w.tree[h].name, Remark(w.tree[h], u))
  }

  ghost predicate Tidiable(f: Format, w: World, x: Snapshot, h: Lba)
    requires f.payload > 0 && f.slots > 0
  {
    h in w.files && (Footprint(f, |w.files[h]|) <= |x.free| || Contiguous(x.blocks, f, h))
  }

  /** What `c`, done to the entry `h`, does to the number of free blocks: a create takes what
      it needs, an edit the difference, a move or an update the comment's block or none, a
      delete gives back what the entry possesses. */
  ghost predicate Costs(f: Format, w: World, c: Command, h: Lba, x: Snapshot, y: Snapshot)
    requires f.payload > 0 && f.slots > 0
  {
    match c
    case WriteAt(_, _, _, _) => Trades(f, w, c, h, |x.free|, |y.free|)
    case Extend(_, _, _) => Trades(f, w, c, h, |x.free|, |y.free|)
    case Resize(_, _, _) => Trades(f, w, c, h, |x.free|, |y.free|)
    case Move(_, _, _, newName) =>
        h in w.tree && NotesBalance(f, x.blocks, h, newName, w.tree[h].comment, |x.free|, |y.free|)
    case Describe(_, u) =>
        h in w.tree && NotesBalance(f, x.blocks, h, w.tree[h].name, Remark(w.tree[h], u), |x.free|, |y.free|)
    case Remove(_, _) => exists n :: Reclaimed(x.blocks, f, h, x.free, y.free, n)
    case Tidy(_) => |y.free| == |x.free|
    case _ => |y.free| + Takes(f, c) == |x.free|
  }

  ghost predicate Trades(f: Format, w: World, c: Command, h: Lba, was: nat, now: nat)
    requires IsEdit(c) && f.payload > 0 && f.slots > 0
  {
    h in w.files && now + Footprint(f, |Made(c, w.files[h])|) == was + Footprint(f, |w.files[h]|)
  }

  /** On a volume without caches: `c` succeeds exactly when it may, and costs what it costs.
      Refused for want of blocks it has drawn every free block there was and kept them, to the
      end of the session; refused for anything else it has drawn none. */
  ghost predicate Accounts(f: Format, layoutPolicy: bool, root: Lba, w: World, c: Command, ok: bool, v: World,
          x: Snapshot, y: Snapshot)
    requires f.payload > 0 && f.slots > 0
  {
    !f.dircache ==>
      && (ok <==> Allows(f, layoutPolicy, root, w, x, c))
      && if ok then exists h :: Does(f, root, w, c, h, v) && Costs(f, w, c, h, x, y)
         else y.free == if Proper(f, root, w, c) then {} else x.free
  }
}
