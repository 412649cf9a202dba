# amiga-ffs: a verified model of its write discipline

`amiga-ffs` writes Amiga OFS and FFS volumes, which have no journal. All that protects a
volume from a crash is the order of the block writes. This project models the code that
keeps that order and proves what it is for.

A volume is a sequence of typed blocks (`Disk.dfy`), a block device writes one of them at a
time, and every state a write leaves is remembered: a crash may leave any of them. The
operations are methods of imperative Dafny over a session (`Mutation.Mutator`), its
allocator (`Allocation.Allocator`) and a reader (`Reader.Volume`), with the writes of the
Rust code in the order of the Rust code. What is proved:

- **Sessions.** A volume is the image of a world: the tree of its entries and the bytes of its
  files. Any script of creates, links, writes, appends, truncations, moves, updates, deletes
  and defragmentations, each naming what it is about by paths, plays on worlds alone: a
  command that succeeds does what its name says, one that fails does nothing (or all of it,
  where it is only a directory's cache that could not follow), and each starts from the world
  the last one left. Whatever write of a command a crash cuts the script short at, the disk
  shows, with every file readable, the world that command began in, the one it makes of it, or
  one of three in between that are named: a file torn between two of the blocks it keeps, an
  entry away while it moves, a new comment ahead of what is to change with it. Without
  directory caches each command succeeds exactly when the volume it begins on allows it, and
  the number of free blocks it leaves follows from the number it found
  (`Sessions.RunScript`; `Diaries.KeepDiary` tells of one script beforehand whether all of it
  will succeed).
- **Safety.** In no state of a whole session, whatever operations it runs, does the bitmap on
  the disk call a block free that a walk from the root arrives at
  (`Survival.EveryCrashIsSafe`).
- **Directories.** In every state an operation leaves, a search of the directories finds one
  of the trees the operation is said to pass through, and each of those is a faithful map
  from names to entries, rooted and free of cycles (`Survival.EveryCrashShows`,
  `Survival.FindShown`). Where the set of trees is more than old and new, the contract says
  which write shows which (`Renaming.Rename`, `Renaming.SetMetadata`).
- **Files.** Every file an operation is not about reads the same in every state it leaves;
  the one it is about holds the old bytes or the new ones, or for an overwrite the old ones
  with a first few blocks new (`Edits.EditFile`), or reads the same throughout
  (`Compaction.Defragment`).
- **Success.** On a format without directory caches the contracts say exactly when an
  operation succeeds, as a condition on the volume before the call.
- **Shrinking.** A resize to fewer blocks succeeds exactly when its checks pass and each part of
  the bitmap that loses its place finds another, which is a count over the free blocks there
  are before; what the new bitmap then calls free is stated (`Shrinking.Shrink`).
- **Refinements.** The word-masked scan, the run search, the hash walk, the ranged read, the
  packing of cache records, the populator's two cursors and its streamed files, the search for
  the least size and the calendar's arithmetic are each proved against a plain description of
  what they are to find; the validator's walk is proved to mark exactly what the root leads to
  whenever it reports nothing, and the rebuilt bitmap to claim all that the old one and the walk
  claim.

Each operation requires that the session is between two operations (`Mutator.Valid`) and, for
a block number handed in, that it is an entry, a directory or no such block at all. Files
whose contents are stated have canonical tables (every table full but the last), which is
how this code writes them.

`DOS` variants and block sizes are the fields of `Format`: OFS or FFS, the folding table,
directory caches, long names, pointers per table, bytes per data block, bytes per cache
page. Time is the session's optional clock. The `ghost` parameters of methods are the
contents a caller knows a file to hold; the contracts hold for whatever they are.

## Model

| member | source | states |
|---|---|---|
| Sessions.RunScript | src/mutate.rs:23-52 | any script plays on worlds, each command from the one the last left; every state a write of a command leaves is safe and shows, with all its files readable, the world the command began in, the one it makes of it, or one in between in three named ways; without caches each command succeeds exactly when the volume it begins on allows it, and how many blocks are free after it follows from how many were before |
| Sessions.Execute | src/mutate.rs:23-52 | the same of one command: what it does to the tree and the files, what a crash in it leaves, and, without caches, exactly when it succeeds and what that does to the free blocks |
| Diaries.DiaryKept | src/mutate.rs:925-1044 | a file created, appended to twice and renamed is under its new name with all three pieces, and nothing else has changed |
| Diaries.DiaryDecides | src/mutate.rs:925-1044 | without caches all four succeed exactly when both names are legal and free, the lengths can be recorded and the blocks each step needs, counted from those free at first, are there |
| Diaries.KeepDiary | src/mutate.rs:925-1044 | both as a method on a volume |
| Paths.FindPath | src/read.rs:1088-1105 | on a volume that shows a tree, after a crash too, a path search finds the entry the path leads to, nothing exactly when it leads nowhere, and fails exactly where the way comes to what is no directory or goes on with too long a name |
| Paths.LeadsToOne | src/read.rs:1088-1105 | a path leads to one entry at most |
| Survival.EveryCrashIsSafe | src/mutate.rs:23-52 | in every state of a session the on-disk bitmap calls nothing free that the root reaches |
| Survival.EveryCrashShows | src/mutate.rs:43-51 | every state since an operation began shows one of the trees it passes through; the one it ends with is among them |
| Survival.FindShown | src/read.rs:1026-1049 | what showing a tree means: a lookup finds the entry filed under the name, or none when none is, and fails only for a name too long |
| Survival.FilesSurvive | src/mutate.rs:43-51 | an operation about no file's blocks leaves every file readable, byte for byte, at every write, and as fit for the next edit as it was |
| Survival.FileSurvives | src/mutate.rs:149-165 | a file none of whose blocks the operation is about has the same chain and bytes in every state |
| Protocol.PutIsSound | src/mutate.rs:27-42 | the one rule behind all writes: a block nothing reaches may be written, and a reached one with pointers that stay among the reached |
| Protocol.FlushIsSound | src/allocator.rs:1018-1050 | writing bitmap pages in any number leaves nothing reached called free |
| Allocation.Allocator.Scan | src/allocator.rs:866-893 | the word-masked scan returns the first free bit of a range, and none only if there is none |
| Allocation.Allocator.AllocateFromBit | src/allocator.rs:836-859 | takes the free block nearest ahead of the start in cyclic order, and fails exactly when no block is free |
| Allocation.Allocator.Allocate | src/allocator.rs:633-635 | the same from where the last search left off |
| Allocation.Allocator.AllocateNear | src/allocator.rs:646-649 | of the free blocks from the hint on the first one, and where there is none there the first of all |
| Allocation.Allocator.Runs | src/allocator.rs:813-828 | the maximal free runs, all of them, in order |
| Allocation.Allocator.AllocateRunFrom | src/allocator.rs:734-805 | the first run long enough in cyclic order of its start, else a whole longest one; all `n` blocks whenever `n` free blocks in a row exist |
| Allocation.Allocator.AllocateExact | src/allocator.rs:908-920 | takes the block exactly when it is free, and says which refusal it is otherwise |
| Allocation.Allocator.MarkInUse | src/allocator.rs:930-942 | takes the block if it was free and tells whether it was |
| Allocation.Allocator.FreeBlock | src/allocator.rs:957-969 | gives back an allocated block, refuses a free one |
| Allocation.Allocator.CountFree | src/allocator.rs:528-548 | the popcount over masked words is the number of free blocks covered |
| Allocation.Allocator.Flush | src/allocator.rs:1018-1050 | afterwards the disk calls free what memory does; on the way it never calls free what neither it nor memory did |
| Allocation.Allocator.ReferencedIsDurable | src/allocator.rs:978-983 | a number `reference` hands out is allocated on the disk |
| Allocation.Allocator.CleanDiskAgrees | src/allocator.rs:1018-1050 | with no page dirty, disk and memory call the same blocks free |
| Allocation.BestIsEnough | src/allocator.rs:734-805 | a stretch of `n` free bits anywhere means the run chosen has at least `n` |
| Names.NameHash | src/lib.rs:498-504 | the 32-bit hash, masked each round, is the unbounded one |
| Names.SameNameSameSlot | src/lib.rs:498-504 | names equal under a folding table share a slot under it |
| Reader.Volume.Lookup | src/read.rs:1026-1049 | on a volume in order: fails exactly for a name too long; finds the one entry with that name; finds none only if there is none |
| Directories.NothingMissed | src/read.rs:1034-1048 | a chain walked to its end without the name means no entry of the directory has it |
| Reader.Volume.ReadDir | src/read.rs:1057-1075 | lists every entry of the directory, each once, slot after slot and each slot in the order of its chain, on any disk; on a volume in order it succeeds |
| Directories.OrderIsDecided | src/read.rs:1057-1075 | there is one such list |
| Reader.Volume.LocateInHashChain | src/mutate.rs:2242-2264 | the pointer that names the block in its chain, or none exactly when it is not there |
| Reader.Volume.ReadFileChain | src/file.rs:90-177 | succeeds exactly when the header has a chain, on any disk, cycles and bad numbers included, and returns it |
| Reader.ChainIsUnique | src/file.rs:90-177 | a header has at most one chain |
| Reader.Volume.ReadChain | src/file.rs:202-236 | delivers what the blocks of a chain hold up to its size, each checked, whether it lists as many as the size asks for or not; fails exactly when one of them does not deliver |
| Reader.HandsIsHolds | src/file.rs:202-236 | what a chain with enough blocks delivers is the file |
| Reader.ContentIsUnique | src/file.rs:202-236 | a file holds one content |
| Reader.Volume.ReadRange | src/file.rs:265-315 | on any chain, a stale one too: succeeds exactly when every block the range reaches can be read, and then each byte is the one its block holds; the slice of the content, clamped at the end; short by the blocks the chain lacks |
| Reader.Volume.ReadDircache | src/dircache.rs:176-215 | the records of the directory's cache chain, found exactly when there is one |
| Chains.ChainIsOwned | src/file.rs:90-177 | every block of a file's chain is pointed at from that chain alone |
| Chains.ChainsApart | src/mutate.rs:149-165 | the chains of two files share no block |
| Mutation.Mutator.constructor | src/mutate.rs:786-794 | a session opened on a volume in order starts with every invariant |
| Mutation.Mutator.TakeBlock | src/mutate.rs:27-33 | a block is allocated on the disk before its number is returned; fails exactly when none is free |
| Mutation.Mutator.RefreshDircache | src/mutate.rs:2443-2583 | afterwards the cache holds a record for every entry of the directory in the order of its listing, whether the chain grew, shrank or moved; what it drew and what it gave back balance; nothing in use was written but the cache, the pointer to it and bitmap pages |
| Dircache.Pack | src/mutate.rs:2443-2583 | the pages are the records in order, none split, each page filled until the next record no longer fits |
| Dircache.PagesFit | src/dircache.rs:225-268 | every page of a refreshed cache fits its block |
| Dircache.RecordsAreBounded | src/build.rs:319-342 | no record is longer than the counted strings of the longest name and comment make it |
| Steps.LinkKeepsOrder | src/mutate.rs:2148-2186 | the write that enters a name keeps the directories faithful and adds one entry |
| Steps.SpliceKeepsOrder | src/mutate.rs:2325-2348 | the write that takes a name out keeps them faithful and removes one entry |
| Creation.CheckName | src/mutate.rs:2030-2038 | accepts exactly the legal names; a refusal points at the first bad byte |
| Creation.Prepare | src/mutate.rs:2090-2141 | succeeds exactly when name and comment are legal, the directory is there and lacks the name, and there are the blocks |
| Creation.FileEntry | src/mutate.rs:2148-2186 | until the slot is written every state shows the old directories; from then on the new entry |
| Creation.CreateDir | src/mutate.rs:871-906 | one new entry and nothing else; old or new directories in every state; when it succeeds and what it takes of the free blocks |
| Creation.PathReadsBack | src/file.rs:440-460 | a path written into the NUL-terminated field is read back exactly when it has no NUL |
| Creation.CreateSoftlink | src/mutate.rs:1065-1089 | the link reads back as the path given; refuses a path too long or with a NUL; otherwise as any create |
| Creation.CreateHardlink | src/mutate.rs:1122-1162 | links exactly files and directories; the new link heads the target's chain of links and goes on to what headed it before; it has the size of a file it links |
| Births.CreateFile | src/mutate.rs:925-1044 | old directories, or new ones with the file whole, in every state; succeeds exactly when named and roomed, and takes as many blocks as it needs; reads back as given exactly up to 0xFFFFFFFF bytes, fit for an edit; every other file as it was |
| Births.OneByteTooLong | src/mutate.rs:1043-1043 | 8505117 free blocks of 512 bytes take a file one byte too long for its header, recorded as empty |
| Births.CreateOneByteTooLong | src/mutate.rs:1043-1043 | with that many free blocks such a create succeeds and no one reads back what was put in |
| Drafting.InterleavedPositions | src/mutate.rs:2876-2888 | every extension block right after the last data block the tables before it list |
| Drafting.Deal | src/mutate.rs:972-980 | the blocks of a run are dealt to data and extension blocks in fetch order, each once |
| Drafting.DrawRuns | src/mutate.rs:1337-1359 | draws exactly the blocks asked for, in one run if there is one long enough, and fails exactly when too few are free |
| Drafting.Draft | src/mutate.rs:1296-1425 | the plan of an edit: which blocks stay, which are replaced, which are new; fails exactly when the free blocks do not suffice |
| Drafting.FreedIs | src/mutate.rs:1523-1540 | what is given back is what the old file has and the new one has not, each block once |
| Passes.KeptStep | src/mutate.rs:1426-1500 | rewriting a kept block in place leaves the old file with exactly one more block of the new bytes |
| Editing.WriteBlocks | src/mutate.rs:1426-1500 | after the passes every block of the new file is in place and the old file, up to its kept blocks, still reads |
| Editing.TakeEffect | src/mutate.rs:1500-1522 | one header write turns the old file into the new one and leaves every other block with its owner |
| Editing.OneMoreExt | src/mutate.rs:1477-1499 | an extension block written in front of a laid-out tail lays out a longer one |
| Edits.EditFile | src/mutate.rs:1261-1546 | written range is data, other bytes survive, the gap is zero; every state holds the new file or the old one with a prefix of kept blocks new; succeeds exactly with enough free blocks; the free count changes by the difference; this file and every other are left fit for the next edit |
| Edits.WriteFile | src/mutate.rs:1186-1197 | as EditFile at the offset; all or nothing for a whole rewrite under the layout policy; what a failure leaves |
| Edits.Append | src/mutate.rs:1206-1215 | exactly the old bytes or exactly those and the new, in every state; the file is fit for the next append |
| Edits.Truncate | src/mutate.rs:1240-1252 | exactly the old bytes or exactly those cut or zero-extended, in every state; the file is fit for the next edit |
| Removal.BlocksOf | src/mutate.rs:2195-2221 | the header and everything it owns, each once, and nothing else; refuses a directory that is not empty; fails exactly when something owned cannot be found |
| Removal.PossessionIsUnique | src/mutate.rs:2195-2221 | what a header owns is one set: its chain, its cache, its comment |
| Removal.LocateLinkPredecessor | src/mutate.rs:2278-2307 | finds the header before a link exactly when the chain of links leads to it |
| Removal.Unlink | src/mutate.rs:1589-1614 | the one entry is gone and everything it owned still allocated; when it succeeds; every file reads the same throughout |
| Removal.Release | src/mutate.rs:1665-1689 | frees exactly what the unlinked header owned, all of it, and says how much; succeeds exactly for an orphan its chain has forgotten and whose possessions can be found; every other file reads the same throughout |
| Removal.Delete | src/mutate.rs:1761-1764 | both: every state holds the directories as they were with the file readable, or the new ones; succeeds exactly when the name can be unlinked; gives back exactly what the entry owned |
| Renaming.RefuseOwnSubtree | src/mutate.rs:2391-2421 | refuses exactly when the walk up meets the entry |
| Renaming.Rename | src/mutate.rs:1801-1876 | the entry under its new name and nothing else; for exactly two of the writes the directories lack it, before them old, after them new; when it succeeds; case-only rename included; both caches mirror their directories but for the date of one directory filed in the other; the free count changes by the comment's block |
| Renaming.DatedIsStale | src/mutate.rs:1858-1864 | a directory stamped after the cache it is in was refreshed leaves the cache behind exactly when its date has changed |
| Renaming.SetMetadata | src/mutate.rs:1898-1965 | old or new entry in every state unless an overflow comment is rewritten in place together with another change, and then one state has only the comment new; when it succeeds; the directory's cache mirrors it |
| Renaming.HalfWayIsThird | src/mutate.rs:1882-1885 | the state in between is neither the old nor, when protection or owner changes, the new one |
| Renaming.LongNamedMixes | src/mutate.rs:1882-1885 | a header and an update for which it is neither |
| Compaction.CountRuns | src/compact.rs:391-402 | the number of ascending runs a sequence takes |
| Compaction.OneRunIsOne | src/compact.rs:391-402 | one run is one block right after another |
| Compaction.FetchOrder | src/compact.rs:411-424 | data and extension blocks as a reader comes to them |
| Compaction.Defragment | src/compact.rs:453-648 | the file reads the same in every state; it moves to blocks that were free and frees exactly those it was in; one run if there is room for one; the free count is conserved; succeeds exactly when the file is in one run already or there are the blocks |
| Validation.Validate | src/validate.rs:378-384 | ends on any disk; what it marks is come to from the root; with nothing to report it has marked all that is, and the bitmap calls allocated those blocks and no others |
| Validation.Validator.WalkReachable | src/validate.rs:397-413 | the walk: every directory come to is looked into once, and no other; with no finding every pointer of what it looked into is settled |
| Validation.Validator.ValidateBitmap | src/validate.rs:658-709 | with no finding a covered block is allocated exactly when it is marked |
| Validation.Validator.CompareCache | src/validate.rs:612-655 | nothing is reported exactly when the records are one for one records of the entries, with their names, sizes and types |
| Validation.Validator.ValidateDircache | src/validate.rs:591-656 | with no finding the cache's blocks are all marked and its records agree with the entries the chains led to |
| Validation.MirrorAgrees | src/mutate.rs:2425-2432 | a cache that mirrors its directory, as one just refreshed does, agrees with it |
| Validation.AllIsMarked | src/validate.rs:397-413 | nothing a walk comes to is outside a set whose pointers are settled |
| Validation.CleanIsSafe | src/validate.rs:658-709 | a volume that validates clean is safe, given that contents hold no pointers |
| Repairing.KeepUsable | src/repair.rs:508-530 | the pointers kept are exactly those into the volume, claimed by no other and reached by no walk |
| Repairing.MarkClaims | src/repair.rs:340-354 | afterwards free is what was and what the old longwords do not call allocated |
| Repairing.MarkReached | src/repair.rs:355-360 | afterwards nothing reached is free; the count is of the blocks this took |
| Repairing.Furnish | src/repair.rs:372-409 | kept places stay, each other one is the nearest block free at its turn; there are blocks for all if and only if as many are free, without the kept places a search comes to too late to take; no block is two places if and only if each kept one not yet marked has enough free blocks nearer to the start of the search for the places missing before it |
| Repairing.EarlyIsUnique | src/repair.rs:372-409 | which kept places those are is decided beforehand |
| Repairing.EnoughOnceMarked | src/repair.rs:372-409 | where every kept place is marked before, there are blocks for all if and only if as many are free as places are missing |
| Repairing.RebuildBitmap | src/repair.rs:336-409 | free are in the end the blocks neither the old bitmap nor the walk claims and no part of the new bitmap is in; replacements come from those; refused if and only if there are not enough |
| Repairing.MarkedBeforehand | src/repair.rs:372-409 | where every kept place is marked before, no block is two places |
| Repairing.TwoPagesInOne | src/repair.rs:372-409 | a bitmap whose two pages become one block |
| Resizing.RootOfSize | src/read.rs:35-40 | the root of a size and the least size with a root undo each other |
| Resizing.AllocatedFloor | src/resize.rs:516-524 | one more than the last block of data |
| Resizing.MinimumSize | src/resize.rs:454-486 | passes both checks of a resize, about the root and about data past the cut, and no smaller size does; at most what the volume has, where its root is in the middle |
| Resizing.PlanResize | src/resize.rs:571-704 | the checks before the first write pass exactly when the size, the medium, both checks and the room for the cache allow; which refusal comes; the root's cache gets distinct places below the cut, each the lowest left |
| Resizing.OneLessIsRefused | src/resize.rs:424-432 | one block less than the least size leaves no room for a root, or puts the root over data, or else cuts off data in the block at the cut, which then is the first past it |
| Resizing.PackedFromTheFront | src/resize.rs:424-432 | a volume for which it is the root and no data is past the cut |
| Resizing.NowhereForTheCache | src/resize.rs:424-432 | a volume whose least size is itself refused, there being no room for the root's cache |
| Shrinking.Shrink | src/resize.rs:571-885 | a shrink of a volume in order succeeds exactly when the checks pass and each page or extension block of the bitmap that is past the cut, under the new root or no longer listed finds a vacant block; refused for the checks before the first write, for the blocks after it; the new bitmap keeps what it can, and free are the vacant blocks it has not taken |
| Shrinking.Rebuild | src/resize.rs:825-869 | vacant are the blocks of the new size that no walk comes to and that the page covering them, where it is kept, calls free or the shrink has left: the old root and the pages and extension blocks beyond what is needed |
| Shrinking.NothingLost | src/resize.rs:866-869 | where no part of the bitmap loses its place the checks decide |
| Shrinking.OnePage | src/resize.rs:866-869 | a bitmap of one page needs that page in place or one vacant block |
| Shrinking.NowhereForThePage | src/resize.rs:424-432 | a freshly formatted volume whose least size passes the checks and is refused for the page; one block less leaves no room for a root |
| Populating.PackRanges | src/bitmap.rs:411-428 | the bits of the ranges are cleared, inside the volume, and no others |
| Populating.Populator.AllocData | src/populate.rs:1253-1268 | a block no one has, outside of the format; refused only when the volume is full |
| Populating.Populator.AllocMeta | src/populate.rs:1273-1292 | a block no one has, behind the format; refused exactly when none there is left |
| Populating.Populator.Finish | src/populate.rs:674-711 | the bitmap marks the format and what was handed out, nothing else, and the count is of these |
| Streaming.Fill | src/populate.rs:1371-1381 | pieces of any length are topped up to a full buffer or the end |
| Streaming.CreateFileWith | src/populate.rs:797-911 | whatever pieces the source gives, the file holds all it had, in canonical tables; succeeds exactly when the length fits 32 bits and the blocks are there; writes only blocks not handed out before, as many as the file needs |
| Calendar.DaysRoundTrip | src/meta.rs:311-337 | every day number gives a date of the calendar that gives the number back |
| Calendar.CivilRoundTrip | src/meta.rs:311-337 | exactly the dates of the calendar have a number, and it gives them back |
| Calendar.NextDayFollows | src/meta.rs:311-322 | the day after a number is the next day of the proleptic Gregorian calendar |
| Calendar.TicksArePreserved | src/meta.rs:268-284 | a stamp and its calendar moment are the same number of ticks, out-of-range fields carried |
| Calendar.StampRoundTrip | src/meta.rs:292-305 | a moment has a stamp exactly when it is one and in range, and the stamp gives it back |
| Calendar.CalendarRoundTrip | src/meta.rs:268-305 | a stamp within its contract survives the trip there and back |

## Findings

Where the code and its documentation part, the model follows the code and the contract says
exactly where.

- `create_file` narrows the length with `as u32` and does not check it (src/mutate.rs:1043),
  where `edit_file` refuses a size past 0xFFFFFFFF. `Births.CreateFile` reads back as given
  if and only if the data is no longer than that, and succeeds whatever its length if there
  are the blocks; `Births.OneByteTooLong` counts them for the shortest such file, and
  `Births.CreateOneByteTooLong` creates it.
- A rename is not "either the old volume, the new volume, or the old volume plus some leaked
  blocks" (src/mutate.rs:43): after the splice and after the header write, and in no other
  state, the entry is in no directory. `Renaming.Rename` says so; the documentation of
  rename itself (src/mutate.rs:1766-1800) concedes it.
- `set_metadata` promises no state in which some fields have changed and others have not
  (src/mutate.rs:1882-1885). An overflow comment that stays in its block is rewritten before
  the header, so the promise fails exactly when that comment changes and protection, owner
  or date does too (`Renaming.Mixes`, a condition on the entry and the update). It holds in
  every other case; where it fails, `Renaming.SetMetadata` names the state, and
  `Renaming.LongNamedMixes` is a case.
- A rename refreshes both caches and then stamps both directories (src/mutate.rs:1858-1865). Where
  one of them is an entry of the other, its record there keeps the old date: the cache is
  stale if and only if the stamp has changed the date (`Renaming.DatedIsStale`). The validator
  does not compare dates.
- `repair` replaces the bitmap's lost pages and extension blocks one by one and marks a kept
  one only when its turn comes (src/repair.rs:376-409). A kept one that neither the old bitmap
  nor the walk has marked can be handed out before: then one block is two parts of the new
  bitmap. `Repairing.Furnish` says exactly when, by a count over the free blocks before the
  loop; `Repairing.TwoPagesInOne` is a case.
- `minimum_size` promises that a resize to it succeeds and that one to a block less is refused
  with `UserDataPastCut` (src/resize.rs:424-432). A resize to it that is a shrink succeeds if and
  only if there are no more blocks of the root's cache in the way than are free below the cut,
  and there is a vacant block below it for each part of the bitmap that is past the cut or where
  the root goes (`Shrinking.Shrinkable`). For want of the first it is refused before it writes
  (`Resizing.NowhereForTheCache`), for want of the second after its writes, with `VolumeFull`
  (`Shrinking.NowhereForThePage`, a freshly formatted volume). One block less is refused with
  `NoRoot` when that leaves no room for a root, with `RootTargetOccupied` when the new root would
  be written over data (`Resizing.PackedFromTheFront`), and with `UserDataPastCut` otherwise.
- An operation that runs out of blocks while it draws them gives none back: a create, an edit or a
  defragmentation refused with `VolumeFull` has taken every free block of the session (for instance
  src/mutate.rs:985-995, src/mutate.rs:1340-1359). `Worlds.Accounts` says when: the refused
  command lacked nothing but blocks. The documentation speaks of such leaks where an operation is
  interrupted (src/mutate.rs:43-45).

## Left out

- `relocate_header`, `make_room`, `compact` and the evacuating form of `defragment_file`:
  moving headers is not part of this model.
- `resize` as writes, its growth beyond the checks, and a volume it finds marked invalid, which it
  repairs first; `repair` as writes: the flag cleared before and set after, and what it severs;
  of `populate`, what is written beside a file's own blocks; `format`.
- Shrinking.Shrink: a new root that lands on an extension block of the bitmap, whose pointers the
  rebuild then reads out of the root, and pages that cannot be read are not modelled.
- `relabel` and the root's name: one field of one block, nothing else depends on it.
- Block bytes: checksums, the field layouts, the comment-and-name field and the boot block. A
  block is what its reader parses; a name is at most as long as the format allows.
- The bitmap's extension blocks: the root lists all pages. Bitmap pages that cannot be read
  belong to opening a session, which is refused here.
- The order of a directory's hard links beyond head insertion and splicing, and the sizes links
  copy: links are entries, and what they target is part of the tree.
- Dates: a touched directory and the volume's date stamps change nothing the trees say, so the
  trees of intermediate states do not mention dates. `Renaming.SetMetadata` does where it
  names the mixed state.
- Success on formats with directory caches: a refresh may need more blocks than are free, which
  the contracts allow as the one further failure; they say what has happened by then.
- Sessions.RunScript: creates no file longer than 0xFFFFFFFF bytes, for which see Findings, and
  starts from a volume whose files all have canonical tables.
- Renaming.SetMetadata: the header of an entry that is unlinked but not yet released is not modelled,
  which the code accepts; here it is an entry's, the root, or no header.
- Validation.Validate: that a volume with nothing wrong is reported clean is said of each check by
  itself (`Mark`, `CheckEntry`, `CheckContents`, `CompareBits`, `CompareCache`), not of the whole.
- Validation.Validator.CompareCache: a record without a type, which the code does not compare, is
  not modelled; records here have one.
