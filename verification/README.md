# A verified model of dunnage

dunnage shrinks build directories while the build system must not notice: it replaces equal files by clones of one, replaces
others by compressed copies, and deletes what nobody builds any more. This project models its engine, its planners, its hash
index and the decisions around them in Dafny, and proves what they promise.

The model follows the program's structure, one module a file:

- `Order`, `Paths`, `Files`: orders and sorting; paths as component sequences; a POSIX-like filesystem of names and inodes whose
  class `Disk` has the calls the engine makes. Each call can fail, and the disk remembers every state it went through, so that
  what holds of all states holds of whatever a crash leaves.
- `Model`, `Scans`: the scan of a unit into inodes with their paths, and the scans of all units with their age floors.
- `Preserve`: what a run may do to files, as relations that compose: nothing outside locked units, only temps new, every file kept.
- `Swap`, `Apply`, `Staging`: one group swapped, one replacement checked and applied, one batch compressed.
- `Index`, `Codec`, `Cache`: the hash index, its file format, and its soundness over any history of builds, runs and seedings.
- `Dedupe`, `Compress`, `Truth`, `Concert`, `Settle`: the planners against plans that compare bytes, the index during a run, plans that
  do not get in their own way, and rounds that leave nothing to do.
- `Discover`, `Guards`, `Removal`, `Reports`, `Run`: the walk that finds build dirs, which units a run gets, what it may delete, what it reports, and the whole run.
- `Passes`, `Rounds`: ghost records of what a pass planned and did, which the engine's contracts promise, and what they imply for the passes and rounds after it.
- `Evict`, `CheckRemove`: the eviction choice and its second look under the lock, over all interleavings with builds.
- `Daemon`, `DepInfo`, `Interference`, `Seed`: the daemon's due and visited units, workspace roots from dep-info files, copies taken
  while others write, and seeding a fresh checkout.

The main results: `Run.RunWith` with `Run.FilesKept` says that whatever the lossless passes plan, over all rounds and in every state a
crash may leave, each file keeps its bytes, mode and age, because a sound index makes `Dedupe.Plan` the plan that compares bytes, and a
sound index stays sound through the swaps it causes and through any number of builds and runs: `Cache.TrustForever`. For passes that
plan anything at all it says what no plan can do. `Rounds.NextRoundIdles` says why rounds come to an end.

Where the code differs from what is said about it, the model follows the code:

- A target that is removed whole takes a profile dir with it that was first built after the inventory, though DESIGN.md:523-529 says
  that one profile built since keeps the target and DESIGN.md:493-495 that a target with a running build is never touched:
  src/evict.rs:166-176 looks again only at the profiles the inventory listed, and nobody holds a lock in the new one.
  `CheckRemove.NewProfileIsTaken` is that run, and `CheckRemove.WholeTakesNoBuild` says exactly when no build is lost.
- A profile dir may name more than one workspace root, though src/eco/cargo/depinfo.rs:28-29 says one at most: `DepInfo.TwoRoots`, and
  exactly when it does not: `DepInfo.AtMostOneRoot`.
- Build dirs found under nested roots may lie in one another, though src/eco/mod.rs:174-178 says they do not nest:
  `Discover.NestedRootsOverlap`, and exactly when: `Discover.BuildDirsApart`.
- A group that lists a path twice leaves a temp behind, since a rename between two names of one file does nothing; the scan never
  lists one twice: `Apply.LeftoverIffRepeated`.
- A lock file named by two units that do not share it makes the second busy because of the first: `Guards.NeverItsOwnLock`.

## Model

| member | source | states |
|---|---|---|
| `Guards.UnitsAscending` | src/engine.rs:314-317 | the units are tried in one order all runs share, each once, and none is lost |
| `Paths.PathsByText` | src/engine.rs:315 | paths are in order by the first component that differs and names by the first character; a dir comes before what is in it |
| `Files.RenameWellFormed` | src/engine.rs:815 | through a rename, which replaces, moves, or does nothing between two names of one file, every link count stays the number of names |
| `Files.UnlinkWellFormed` | src/engine.rs:817 | removing a name keeps every link count the number of names, and the inode goes with its last name |
| `Files.LinkWellFormed` | src/engine.rs:804 | a hardlink keeps every link count the number of names |
| `Files.Disk.RemoveDirAll` | src/engine.rs:245 | removes names of one dir only, in any order, and may stop half way; every state between is well-formed |
| `Model.Scan` | src/model.rs:95-130 | the profile tells of every file the walk meets, under each of its paths, with the size, age, mode, flags, links and blocks it has, and of nothing else; each inode once, paths in order, every temp met apart |
| `Model.WalkDir` | src/model.rs:97-119 | the walk comes to every visible file once and groups it under its inode |
| `Swap.SwapIn` | src/engine.rs:793-807 | in every state of the swap, and after any failure, each path is on its old inode or the new complete one, and all that is new is a temp beside the group; done, the names are the old ones with every path on the target |
| `Swap.RenameFirst` | src/engine.rs:810-820 | prepares the temp and renames it over the first path, or removes it; every state on the way is one the swap allows |
| `Swap.JoinRest` | src/engine.rs:802-805 | joins every other path by a hardlink and a rename, one after the other |
| `Swap.LinkAs` | src/engine.rs:827-833 | the shared inode gets the later of the two mtimes, exactly, and no other inode changes its age |
| `Swap.CloneAs` | src/engine.rs:835-844 | a new file with the source's bytes and the member's mtime and mode; nothing else changes in any state between |
| `Swap.RenameKeepsMid` | src/engine.rs:810-820 | renaming the complete temp over a path of the group keeps the swap on its way, even where rename does nothing |
| `Swap.JoinsLeaveNoTemp` | src/engine.rs:793-807 | where no path is listed twice the joins end with the group moved and no temp left |
| `Apply.CheckGroup` | src/engine.rs:648-667 | which check of a group fails first, or that all hold, as a function of the filesystem |
| `Apply.TryReplace` | src/engine.rs:583-641 | the result is the first check that fails; a refused replacement has changed nothing; one done has swapped exactly its group |
| `Apply.ApplyReplace` | src/engine.rs:579-641 | every state of a replacement keeps the rules of the run: confined to locked units, only temps new, and for a vouched one every file as it was |
| `Apply.GroupIntegrity` | src/engine.rs:583-641 | after a replacement no name is new and none gone, all paths share one inode, the old inode is gone, and a clone has exactly the group's links |
| `Apply.LeftoverIffRepeated` | src/engine.rs:793-820 | a temp outlives a successful swap if and only if the group lists a path twice |
| `Apply.NamesAreThePaths` | src/engine.rs:656-658 | a group whose link count is its number of paths holds every name of its inode |
| `Apply.SwapKeeps` | src/engine.rs:583-641 | in every state of a swap with equal content each file that is not a temp reads its bytes, mode and age |
| `Apply.SwapIsConfined` | src/engine.rs:643-654 | no state of a swap of a locked group touches a name outside the locked units |
| `Preserve.StepThenStep` | src/engine.rs:384-508 | what a stretch of a run keeps, two stretches keep |
| `Preserve.HistoryFromStart` | src/engine.rs:384-508 | the states of a later stretch under tighter rules are states the whole run allows |
| `Staging.StageCopy` | src/engine.rs:747-758 | a private copy of the group's content beside its first path, or the check that fails, with every other file untouched |
| `Staging.StageBatch` | src/engine.rs:677-685 | every group of the batch is staged or refused, and no other |
| `Staging.CompressCopies` | src/engine.rs:686-687 | the backend works on private copies only: every name there was is on the inode it was on |
| `Staging.TryFinish` | src/engine.rs:772-787 | swaps the copy in only if it came back compressed and as long, and the group still stands; else says why not |
| `Staging.FinishCompress` | src/engine.rs:760-770 | a compressed group is whole on one new compressed inode with the scanned bytes, mtime and mode; on a disk without errors of its own a refused one is where it was and its copy is gone |
| `Staging.ApplyCompress` | src/engine.rs:669-704 | each group comes to one outcome, a refusal to a check that failed or an I/O error; a path moves only onto a new compressed file of its group's bytes, without I/O errors only of a group told of as compressed; the inode of a whole compressed group is gone; every state keeps the rules of the run |
| `Staging.WholeSwap` | src/engine.rs:793-807 | all paths of a compressed group share the new inode and no temp stays |
| `Index.HashIndex.Get` | src/index.rs:92-98 | the hash and mark kept for exactly this version of the file, if there are any, stamped as seen; no entry changes |
| `Index.HashIndex.Put` | src/index.rs:101-110 | the index then has this hash and mark for exactly this version, seen now, and knows of every other file what it knew |
| `Index.ReplacedTells` | src/dedupe.rs:159-166 | where the source was known, source and copy are then known as shared with its hash, seen now, nothing is known of the member, and of other files what was; else nothing changes |
| `Index.RewrittenTells` | src/dedupe.rs:168-174 | where the old inode was known, the new one is then known by its hash, unshared and seen now, the old one is not, and of other files what was; else nothing changes |
| `Index.TouchedSound` | src/index.rs:92-98 | a lookup changes no answer and keeps a sound index sound |
| `Index.PutSound` | src/index.rs:101-110 | storing a hash keeps the index sound if it is the hash of whatever the inode holds |
| `Index.SharedSound` | src/index.rs:113-122 | marking an entry shared keeps the index sound |
| `Index.RemovedSound` | src/index.rs:131-133 | forgetting files keeps the index sound about the others |
| `Index.ExpiredAt` | src/index.rs:125-129 | expiring drops exactly what was not asked for within the time given; what this run has asked for answers as before |
| `Index.DatedThrough` | src/index.rs:92-133 | what an index knows after one stretch of states and another are versions of files that it knew before or that were there |
| `Codec.Encode` | src/index.rs:153-170 | in whatever order the entries come, decoding gives them back without those before 1970 |
| `Codec.Decode` | src/index.rs:172-205 | total on all bytes: the parsed records in order, or nothing |
| `Codec.RecordRoundTrip` | src/index.rs:24-31 | one 77-byte record carries every field: device, inode, size, seconds, nanoseconds, hash, shared mark, last seen |
| `Codec.RecordLayout` | src/index.rs:24-31 | the place of every field in the record, numbers with the low byte first |
| `Codec.DecodesIff` | src/index.rs:172-205 | bytes decode if and only if they are the magic and whole records with a time that exists |
| `Codec.DecodedCanBeSaved` | src/index.rs:153-205 | whatever was decoded can be saved again whole: every field fits its record and no entry is left out |
| `Cache.TrustForever` | src/index.rs:92-133 | over any interleaving of builds, lossless runs as `Run.RunWith` promises them, seedings as `Seed.Seed` promises them, expiry, save and load, an entry that hits a file has the hash of its bytes, and the next run may go by it |
| `Cache.EventKeepsTrust` | src/dedupe.rs:109-174 | each single one of those keeps the index right and about versions that have been |
| `Cache.RunKeepsTrust` | src/engine.rs:307-509 | a run of lossless passes that begins with a trusted index leaves one: every version the index then knows was one before the run or in some state of it |
| `Cache.StampTrustIsNeeded` | DESIGN.md:387 | a write breaks the index if and only if it brings back a cached stamp with another content |
| `Dedupe.Prefilter` | src/dedupe.rs:91-107 | exactly the candidates with another candidate of their size on their device: no duplicate is lost |
| `Dedupe.HashUnknown` | src/dedupe.rs:109-125 | counts exactly the files the index does not know, stores for each of them that can be read the hash of its bytes, and changes no other answer |
| `Dedupe.GroupByContent` | src/dedupe.rs:127-136 | the groups are the known candidates of one content on one device, each file once |
| `Dedupe.RankedApart` | src/dedupe.rs:179-188 | the sorted group begins with its one least member in canonical order |
| `Dedupe.CanonicalPrefers` | src/dedupe.rs:176-188 | the canonical inode is shared if any is, among those compressed if any is, then as old as any, then first by path |
| `Dedupe.PlanGroup` | src/dedupe.rs:139-153 | exactly one replacement for each unshared member but the canonical one, pointing at it |
| `Dedupe.PlanGroups` | src/dedupe.rs:138-156 | the plan in strict order of the members' paths; no file is a member twice and no source is a member |
| `Dedupe.PlanIsSimple` | src/dedupe.rs:88-157 | hashing, buckets and groups come to exactly the plan that compares the bytes of all candidates |
| `Dedupe.Plan` | src/dedupe.rs:88-157 | asked for are exactly the files that may be shared and have another of their size on their device; each action clones a member where its unit can clone and links it only where it cannot and linking is allowed; with a sound index and true scans, a replacement is planned if and only if comparing bytes asks for it |
| `Dedupe.CandidatesAre` | src/dedupe.rs:64-82 | a file is a candidate if and only if a scanned unit has it, the unit can clone or may link, and it is large enough, old enough, without other flags and found under all its links |
| `Dedupe.LearnedSound` | src/dedupe.rs:119-125 | hashing leaves a sound index sound |
| `Dedupe.Replaced` | src/dedupe.rs:159-166 | source and copy are shared with one hash, and the member's entry goes |
| `Dedupe.Rewritten` | src/dedupe.rs:168-174 | the hash moves to the new inode, unshared |
| `Compress.Plan` | src/compress.rs:58-75 | exactly the groups of units with compression that are large enough, old enough, found under all their links, without any flag, not compressed and not known as shared, in the order of the scans |
| `Settle.PlannedOnce` | src/compress.rs:58-75 | over units that are apart no group is planned twice |
| `Scans.ScanAll` | src/engine.rs:515-538 | every unit's files but those younger than the floor told of it; a unit becomes unsure if and only if it has such a file, and never sure again |
| `Run.AgesAsked` | src/engine.rs:331-347 | files of a quiet unit must be a day old to be looked at, of a store an hour, and of a locked unit of any age |
| `Scans.WholeGroup` | src/dedupe.rs:75 | a link count equal to the paths found means no name anywhere else |
| `Scans.ScansSeparate` | src/model.rs:95-130 | over units that are apart no file is a candidate twice, hardlinks across units included |
| `Scans.LeftoverIsListed` | src/model.rs:108-111 | whatever a swap cut short has left, the next scan lists as stale |
| `Truth.KnowsAfterReplace` | src/engine.rs:827-833 | a replacement leaves the index right even where a hardlink moved its source's age |
| `Truth.KnowsReplaced` | src/dedupe.rs:159-166 | what the index is told after a replacement is true of the scan and of the disk |
| `Truth.KnowsRewritten` | src/dedupe.rs:168-174 | what the index is told after a compression is true of the scan and of the disk |
| `Truth.KnowsLearned` | src/dedupe.rs:109-125 | what hashing learned is right for good, whatever age the file gets |
| `Concert.WantedStands` | src/dedupe.rs:127-156 | every planned clone passes every check on the scanned state |
| `Concert.OthersStand` | src/engine.rs:583-667 | a clone put in place leaves every other planned one standing |
| `Concert.PlanSkipsNothing` | src/engine.rs:583-667 | a plan of clones, tried in order on a disk without errors of its own, skips nothing |
| `Settle.NothingToHash` | src/dedupe.rs:109-118 | after a dedupe round that applied its plan no file is hashed again |
| `Settle.NothingToDedupe` | src/dedupe.rs:138-157 | after it the plan of a second round is empty, whatever cannot be read then |
| `Settle.TwinsAreShared` | src/dedupe.rs:145-153 | after it every file that has an equal is marked shared |
| `Settle.NothingToCompress` | src/compress.rs:58-75 | what compress would plan after a dedupe round it would have planned before: dedupe makes it no work |
| `Settle.BatchShrinks` | src/engine.rs:669-704 | a batch leaves the inodes of compressed groups gone, compressed ones in their place, and no other file changed, refused groups included |
| `Settle.CompressSettles` | src/compress.rs:58-75 | with every planned group compressed none is planned again |
| `Settle.RoundSettles` | src/engine.rs:384-508 | a compress stretch and then a dedupe round leave dedupe nothing to plan or hash, and compress only what it did not get done |
| `Rounds.DedupeSkipsNothing` | src/engine.rs:393-472 | in a run that only puts clones in place, without I/O errors, a dedupe pass as the engine records it skips nothing, interrupted or not |
| `Rounds.StaysCurrent` | src/engine.rs:494-498 | there, after every pass each scanned file is where the engine saw it: a pass that applied nothing has moved nothing, so no new scan is needed |
| `Rounds.RoundLeaves` | src/engine.rs:384-508 | after a recorded round of compress and dedupe, dedupe has nothing to plan and nothing to hash, and compress only groups that were refused, as long as no file comes of age |
| `Rounds.NextRoundIdles` | src/engine.rs:502-508 | of two consecutive recorded rounds the second plans to compress only what the first had refused, and with nothing refused it plans nothing at all |
| `Rounds.LapIdles` | src/engine.rs:382-508 | so it is of the rounds of one run, as `Run.RunWith` tells them: once all was done and nothing refused, a next round plans nothing |
| `Guards.LockTable.TryGuard` | src/engine.rs:267-277 | a lock is taken if and only if neither a build nor this run holds it; tiers without a lock take none; `Held` is refused |
| `Guards.TakeGuards` | src/engine.rs:319-372 | guard by guard: a quiet unit is busy if and only if its tool runs, unsure if nobody could look, and else has a floor of a day; a store is never busy, always unsure, with a floor of an hour; a unit with a lock is the run's if and only if no build holds the file and no unit before it took it otherwise; a shared lock is tried once |
| `Guards.LockedOrBusy` | src/engine.rs:366-371 | every unit is locked or busy, never both |
| `Guards.SharedTogether` | src/engine.rs:348-357 | units under one shared guard are all in or all out |
| `Guards.NeverItsOwnLock` | src/engine.rs:348-365 | no unit is called busy for a lock this run holds, if and only if no free lock file guards two units that do not share it |
| `Guards.LockedOrQuiet` | src/engine.rs:329-347 | a unit worked on has its lock file among those this run holds, or is reported quiet with an age floor; it is unsure exactly if it is a store or its tool could not be looked for |
| `Discover.FindBuildDirs` | src/eco/mod.rs:179-203 | exactly the claimed dirs the walk of some root comes to, each once and in path order; a claimed dir and `.git` are not entered |
| `Discover.ClaimsExactly` | src/eco/mod.rs:184-203 | the walk of a dir claims a path if and only if every dir on the way is there, is not `.git` and is not claimed, and the path is |
| `Discover.BuildDirsApart` | src/eco/mod.rs:174-178 | the found dirs lie apart if and only if no root that finds anything lies inside a dir claimed from another root |
| `Discover.NestedRootsOverlap` | src/eco/mod.rs:179-183 | wherever a root lies inside another root's build dir and finds something there, they do not |
| `Removal.RemovalAllowed` | src/engine.rs:431-444 | a removal let through in a locked unit takes nothing from any unit but the locked one it is in, and nothing from an unsure one |
| `Removal.TargetRemovalAllowed` | src/engine.rs:445-461 | a removal let through in a target takes nothing from any busy or unsure unit, locked or not |
| `Removal.RefusedExactly` | src/engine.rs:431-457 | a removal is let through if and only if the dir lies in a locked unit and in no unsure one, or in a target that has a locked unit and no busy or unsure one; a mere doubt is told of as one |
| `Removal.NoteBusy` | src/engine.rs:562-577 | adds exactly the locked units of files found in use, each once |
| `Removal.WithoutAt` | src/engine.rs:251 | exactly the units outside the removed dir are still worked on |
| `Reports.AbsorbKeepsBalance` | src/engine.rs:147-166 | absorbing a later round keeps planned equal to applied plus skipped, and freed within planned, whatever that round did |
| `Reports.AbsorbedPaths` | src/engine.rs:147-166 | the paths told of are those of either report |
| `Reports.CountedOnce` | src/engine.rs:147-166 | a round that applies nothing counts something if and only if it skips a path for the first time |
| `Reports.AbsorbedTells` | src/engine.rs:150-166 | a later round adds what it applied and freed, each of its skips at a path not told of before, and its removals, each once |
| `Reports.SummedOneMore` | src/engine.rs:189-199 | the totals of applied and freed are the sums over the rounds, pass by pass |
| `Reports.BatchTells` | src/engine.rs:688-701 | a batch adds one applied for each compressed group, what it is smaller by and never less than nothing, and one skip for each refused one |
| `Passes.TallyTells` | src/engine.rs:398-472 | a report plans every action with its size, lists every removal with its reason, and if this is no dry run counts and sizes what was done on the spot, and lists what was left alone with the reason |
| `Passes.SumIsOfGroups` | src/engine.rs:406-416 | removing a dir is told to free the groups with every path in it, none that is linked from outside |
| `Reports.Report.Absorb` | src/engine.rs:189-199 | pass by pass, and no other field changes |
| `Reports.AbsorbInto` | src/engine.rs:150-166 | the loops come to the absorbed report |
| `Run.Engine.ReplaceOne` | src/engine.rs:462-470 | the replacement's outcome is the checks' and the swap's; the index is told if and only if it was applied; all invariants of the run hold |
| `Run.Engine.TryRemoval` | src/engine.rs:431-461 | a removal is tried if and only if it may be made; what is removed is gone and no longer worked on |
| `Run.Engine.DoAction` | src/engine.rs:399-472 | one more action is planned, and it is applied, skipped for the reason its checks give, or laid aside; a dry run changes nothing |
| `Run.Engine.TryActions` | src/engine.rs:393-472 | the report is the tally of the actions in order, each planned and then applied, skipped or laid aside as it came out; without an interrupt all are; of replacements alone the course of every state, goal and index is told |
| `Run.Engine.CompressBatch` | src/engine.rs:669-704 | every group of the batch is applied or skipped in the report, each refusal for a check that failed or an I/O error, no more is freed than it held, and the index follows what moved |
| `Run.Engine.CompressAll` | src/engine.rs:473-486 | all groups in batches of at most 256, or the first ones in a whole number of batches when the run has to let go; each batch told with its outcomes |
| `Run.Engine.PlanPass` | src/engine.rs:79-96 | dedupe plans exactly what comparing the scanned bytes asks for and compress exactly what is worth it; whatever any pass plans is vouched for as far as the run's rules promise |
| `Run.Engine.PlanDedupe` | src/dedupe.rs:88-157 | whatever happened in earlier rounds, the plan is the one that compares the scanned bytes |
| `Run.Engine.RemoveDir` | src/engine.rs:238-254 | a refused removal changes nothing; one that is tried is recorded with what was locked, busy and unsure then |
| `Run.Engine.RunPass` | src/engine.rs:386-500 | everything planned is accounted for, exactly the units found in use become busy, what changed is scanned anew before the next pass; the record of the pass is true: its plan, what came of each action, and the report of that |
| `Run.Engine.RunRound` | src/engine.rs:384-500 | one report in order for each pass that is not lossy or that the options name, of all of them unless one has to let go, and its records lead from one to the next; no removal unless such a pass is neither dedupe nor compress; the round progressed if and only if some pass applied something; without I/O errors and with clones only dedupe skipped nothing |
| `Run.Engine.Begin` | src/engine.rs:374-380 | after the first scan and the sweep no temp a scan can see is left, however old its maker |
| `Run.RunRounds` | src/engine.rs:382-508 | at most eight rounds, more than one only where asked for and each after one that applied something; they end when let go, when one was asked for, or when one applied nothing; the totals balance and are the sums over the rounds, and the records of the rounds lead from one to the next |
| `Run.RunWith` | src/engine.rs:307-509 | whatever the passes plan: every state is confined and adds only temps; removals spare busy and unsure units; there is one report in order for each pass that is not lossy or that the options name, of all of them unless the run lets go, with totals that are sums over the rounds; where every pass but dedupe and compress is lossy and unnamed nothing is removed, and with a right index every file that is not a temp stands in every state; with clones and no I/O errors dedupe skips nothing in the whole run; told are the temps swept, every unit a build held and else only units worked on; a dry run changes nothing; locks are dropped |
| `Run.FilesKept` | src/engine.rs:384-508 | in every state of a run of lossless passes, interrupted or not, each file that is not a temp has its bytes and mode, its mtime exactly in clone mode and never lower in link mode |
| `Run.BusyUntouched` | src/engine.rs:321-372 | whatever the passes plan, a unit busy when the guards were taken keeps every name on its inode |
| `Run.UnsureSpared` | src/engine.rs:431-461 | no removal touches a unit unsure at that removal or any before it, be it locked, busy or neither |
| `Run.BusySparedByTargets` | src/engine.rs:445-457 | no removal in a whole target touches a unit busy at that removal or any before it, one found in use during the run included |
| `Run.LeftoversAreTemps` | src/engine.rs:374-380 | what is new in any state is a temp of this process in a locked unit |
| `Evict.Select` | src/evict.rs:51-86 | the idle ones in order, then as many of the least recently built as the cap takes; the running total never underflows |
| `Evict.IdleExactly` | src/evict.rs:60-70 | exactly the profiles built as many times 86400 seconds ago as days are asked, all that were built if none are, each with the whole days gone; none with an unknown build |
| `Evict.CapTakesOldest` | src/evict.rs:72-83 | what the cap takes was built before all it spares, or at the same time and is not behind it by path |
| `Evict.VictimsInOrder` | src/evict.rs:72-83 | what the cap takes it takes oldest build first, and in path order among equals |
| `Evict.CapIsMetMinimally` | src/evict.rs:72-83 | afterwards the total fits or everything with a known build is chosen, and without the last victim it would not fit |
| `Evict.ReasonsTell` | src/evict.rs:77-81 | each reason's total is what was left before its profile |
| `Evict.WholeExactly` | src/evict.rs:103-126 | a target goes whole if and only if it has profiles and every one is chosen |
| `Evict.PlanEvict` | src/evict.rs:158-191 | the whole targets of which every listed profile still has its build, in order, then in order the single profiles that still have theirs and go with no target; nothing else keeps one |
| `Evict.CachesAt` | src/eco/cargo/incremental.rs:32-44 | exactly the profiles with a cache built as many times 86400 seconds ago as days are asked |
| `Evict.PlanCachesAt` | src/eco/cargo/incremental.rs:66-85 | exactly the caches still there of profiles not built since |
| `CheckRemove.RemovedAsChosen` | src/evict.rs:158-191 | over all interleavings of builds, a profile removed by itself has the inventory's last build and is locked |
| `CheckRemove.NotBuiltSinceChosen` | src/session.rs:633-646 | nobody has built a profile that is removed by itself since the inventory that chose it |
| `CheckRemove.ListedNotBuilt` | src/evict.rs:166-176 | nor any listed profile of a target that is removed whole |
| `CheckRemove.WholeTakesNoBuild` | src/evict.rs:166-176 | a target removed whole takes no build made since the inventory if and only if a second listing under the locks would find no built profile dir the inventory did not list |
| `CheckRemove.NewProfileIsTaken` | DESIGN.md:523-529 | a profile dir first built after the inventory goes with its target, against the design: the run is allowed, planned and let through |
| `CheckRemove.IdleWhenRemoved` | src/eco/cargo/incremental.rs:66-85 | what was idle enough to choose is at least as idle when it goes |
| `CheckRemove.LockAloneIsNotEnough` | src/evict.rs:159-165 | without the second look a build before the lock would be lost |
| `Daemon.State.Discover` | src/daemon/mod.rs:119-134 | the units found, each with the visit known of it |
| `Daemon.State.Refresh` | src/daemon/mod.rs:138-153 | the last build and the due time of every unit, nothing else |
| `Daemon.State.MarkVisited` | src/daemon/mod.rs:157-171 | exactly the ready units not seen busy, and none if a group's last visit was cut short |
| `Daemon.NextWake` | src/daemon/mod.rs:175-184 | the least of the interval, the next walk and the future due times of pending units |
| `Daemon.Turn` | src/daemon/mod.rs:262-307 | a turn starts the passes if and only if some unit was built, is not visited for that build, and is cold by the floor; it marks exactly such units, and only those its run finished with; every other mark, carried over by a walk, stays; it is a legal run of the events walk, look and end of a run |
| `Daemon.TimedTurn` | src/daemon/mod.rs:262-307 | a walk is made exactly when one is due; the daemon wakes no later than the interval, the next walk, or the time any unit not visited for its last build goes cold, and at one of them |
| `Daemon.Loop` | src/daemon/mod.rs:262-307 | any number of turns, the first with a walk and the others when one is due, each make of the units what a turn makes of them, and are a legal run of events, so every visit mark in the end was there before or was earned |
| `Daemon.VisitsAreEarned` | src/daemon/mod.rs:157-171 | a unit is taken for visited after a build only through a run that finished with it, that build observed before |
| `Daemon.NoBuildIsLost` | src/daemon/mod.rs:42-51 | after any look a unit whose last build no finished run has seen is pending |
| `Daemon.BuildDuringRun` | src/daemon/mod.rs:262-307 | a build during a run is not marked by it |
| `DepInfo.StripTailExactly` | src/eco/cargo/depinfo.rs:74-80 | the result is `root` if and only if the path is `root` and the tail |
| `DepInfo.RootsOfUnit` | src/eco/cargo/depinfo.rs:43-68 | a root is returned if and only if some file pairs, every pairing file is explained by it, and no foreign source lies under it |
| `DepInfo.WorkspaceRoots` | src/eco/cargo/depinfo.rs:30-71 | exactly the roots of the units, by the absolute sources that cargo's files name, in path order |
| `DepInfo.OrderDoesNotMatter` | src/eco/cargo/depinfo.rs:45-63 | the files may come in any order |
| `DepInfo.AtMostOneRoot` | src/eco/cargo/depinfo.rs:28-63 | a unit names at most one root if and only if some file tells apart any two prefixes at which one pairing file's relative sources end cargo's |
| `DepInfo.OnePrefixOneRoot` | src/eco/cargo/depinfo.rs:43-68 | one pairing file whose relative sources end cargo's at one prefix only is enough for that |
| `DepInfo.TwoRoots` | src/eco/cargo/depinfo.rs:28-29 | any two prefixes that explain every pairing file, with nothing foreign under either, are both returned, against the comment |
| `DepInfo.Prerequisites` | src/eco/cargo/depinfo.rs:98-125 | the words of every rule line, comments and other lines skipped |
| `DepInfo.RuleRoundTrip` | src/eco/cargo/depinfo.rs:98-125 | a written rule is read back exactly if and only if no name is empty |
| `DepInfo.TextRoundTrip` | src/eco/cargo/depinfo.rs:98-125 | a written file gives back every prerequisite of every rule in order, unless a line ends in a carriage return |
| `DepInfo.CarriageReturnGoes` | src/eco/cargo/depinfo.rs:98-125 | a line that ends in a carriage return and a line feed is read without both |
| `DepInfo.OnlyRulesAreRead` | src/eco/cargo/depinfo.rs:98-125 | a comment names nothing, nor does a line that is no rule |
| `Interference.CloneGuarded` | src/engine.rs:605-626 | with anyone writing between any two steps, a clone let through has exactly the bytes the source had at its stamp |
| `Interference.CompressGuarded` | src/engine.rs:747-787 | the same for a compressed copy and the stamp of the path it was made from |
| `Interference.TwoLooksSuffice` | src/engine.rs:608-626 | if stamps may come back, two looks that find one stamp make a copy sound if and only if no version between them has another byte where the copy may be reading |
| `Seed.Seed` | src/seed.rs:206-249 | every file below the source in no busy unit and with nothing volatile, private or temporary on the way is copied whole to its place below the target, nothing else is new, the source is untouched, and the index stays right and about versions that have been |
| `Seed.Register` | src/seed.rs:254-265 | a known source and its copy are both shared with one hash, and the index stays right |

## Left out

- Directories and symlinks: a name is the path of a regular file. `lift_dirs`, which makes a read-only dir writable for one batch, changes dirs only, and the device boundary of the walk is not drawn.
- The platform layer (`src/sys`): what a filesystem can do, the tool check, the clone and the compression backend are parameters. Taken as assumptions: the backend works on the copies it is given and keeps their bytes or leaves another length, and a new file gets an identity no file ever had.
- SHA-256 is any function from bytes to 32 bytes that tells apart the contents of the files a run begins with; a function injective on all bytes does not exist.
- Temp names are a name form of their own, since nobody else makes them: a file with the temp prefix made by anyone else is a temp all the same.
- Writes by others while a run holds the locks: inside locked units there are none, outside them they do not matter to what is stated. `Interference` treats units without a lock, one path at a time.
- The clock and the stop flag: an interrupt may come at any of the places the code looks for one.
- `u64` overflow of byte counts and serials; times are unbounded integers in nanoseconds.
- `Run.Engine.PlanPass`: a pass other than the two lossless ones may plan anything, but of files to compress it lists no temp, as the scan it is given has none.
- `Run.RunWith`: requires that no unit lies in another, which for build dirs holds exactly when `Discover.BuildDirsApart` says so and for the units of one build dir is its adapter's matter, and that a temp name of this process is not hidden in a dir the build keeps private.
- `Run.FilesKept`: holds for a run that begins with an index that is right about the files, which `Cache.TrustForever` provides over any history of lossless runs, and hashes that tell their contents apart. After a run with a lossy pass in it nothing is said of the index.
- `Run.BusySparedByTargets`: says nothing of a removal inside one locked unit, since `Remove` does not look at units found in use during the run.
- `Rounds.NextRoundIdles`: clone mode only; with hardlinks the source's mtime may move, and a later action on it is skipped. A round in which compress planned something and applied nothing is left out, since dedupe then goes by the scan made before it, and so is the first round of a run that swept temps away, since its scan is older than that.
- `Interference.CompressGuarded`: looks at the path the copy is made from; the other paths of a group lend no bytes.
- `Staging.ApplyCompress`: the refusals of a batch come before the other outcomes; the code tells them in the same order but interleaved with the index updates, which none of them reads.
- `Daemon.State.MarkVisited`: two groups with one path count as one, as in the code; the state file and the sleep are not modelled.
- `Seed.Seed`: dirs and symlinks are not copied, and which units are busy is a parameter.
- `Evict.PlanEvict`: leaves out the texts of the reasons.
- `CheckRemove.RemovedAsChosen`: covers removals of single profiles, whole targets being `CheckRemove.WholeTakesNoBuild`; takes what an adapter tells as the time of the last build; that a lossless pass may move it by renaming in a top-level dir is not modelled.
- Which build dirs make a group of a session, and that groups out of budget are visited once more.
- Choosing a sibling to seed from, orphans, docs, stores, the adapters' markers, git, the CLI, configuration and every text a user reads.
