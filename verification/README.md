# layat: the placement engine, modelled and verified

layat places the entries of a manifest (symlinks and copies) under a root directory, removes what the
previous manifest placed and the next one drops, and moves a profile pointer. This project models that
engine and its surroundings and proves what it keeps, over every plan, every failure point and every
tree. `dafny verify dfyconfig.toml` checks it.

## The model

A tree is a map from paths to directories, files and links, closed under parents (`Trees`). What lies
behind a symlink is a read-only `World` with a three-valued `probe` (found, absent, other error). A
`Job` (`Planner`) is one planning problem: previous manifest, next manifest, tree and world, options;
`Job.Compute` is the plan it comes to, told entry by entry as a verdict. `PlanBuilder` (`Builder`) is the
planner as the program runs it, loops over a shared plan with a table of marks, and is proved to compute
exactly `Job.Compute`; what that plan holds is told by the manifests and the tree alone in `Verdicts`.

A run is a sequence of primitive writes (`Steps.Event`); the undo journal is a function of it. Each
action's writes are spelled out (`Program.RunOne`), and a run that failed anywhere, or inside a recursive
copy, is a cut of the full one (`Runs.CutOf`). The executor as the program runs it is the class `Applier`
(`Engine`) over a `Disk` (`Disks`) whose forward calls may be refused for no visible reason, which it counts;
each stage loop is proved to carry out its list of actions or a cut of it, and all of it where nothing is
refused and every action can be done. `Sessions` puts them together: `Apply`,
`Rollback`, the drift repair of a skipped generation, the dry run. `Reset`, `Prune`, `Pool` and `Writers`
model the teardown, the deletion of orphaned profile series under competing locks, the `apply --all`
workers, and the two stream writers.

The theorems are about the declarative side and carry over, because every method's contract ties it to
that side: `PlanFacts`, `Verdicts` and `Migrations` (the plan), `Effects` (each action on any
tree), `Undo`, `Runs`, `Atomic` and `Leftovers` (failure), `Stages`,
`Converge`, `Turns`, `Settle`, `Outcomes`, `Emptied`, `Undercut` and `Contents` (success), `Conserve` (no file
lost), `Crash` (lost journal), `Safety` (removals), `Drift`, `Partition`, `Reports`, `Failures`.

## What is taken for granted

The predicates below name the assumptions; each theorem requires only those it needs.

- `PrefixFree(next)`, `Distinct(prev)`: targets of next are distinct and none lies above another; the
  planner itself does not check this (internal/planner/planner.go:271). prev may nest.
- `AsidesFree`: no backup or recopy aside of a target is a target or lies on the way to one; `AsidesNamed`
  adds, for a --recopy run, that no backup aside is a recopy aside.
- `Orderly` is a valid tree with `PrefixFree` and `AsidesFree`; placing and undoing need no more.
  `Runnable` adds an accepted plan and `SourcesExist`: the sources of planned copies are there.
- `Spared`: no leftover of an earlier --recopy run stands where this one would put an aside
  (`OrderlyFor(job, true)` is `Orderly`, `AsidesNamed` and `Spared`).
- `Foreign(view, entry)`: what lstat sees through a symlink on the way to the entry's target is not the link
  the entry recorded. The remove side does not look for symlinked ancestors
  (internal/planner/planner.go:295). `SourcesForeign` says the same of symlinks within a copied source,
  `Unseen` of the links that next places.
- `Standing` is `Orderly`, `Distinct(prev)` and `Foreign` for every entry of prev; `Steady` is `Standing`,
  `Runnable` and `SourcesForeign`. `Good` adds that no dropped target lies beneath a copy target (`Uncrossed`).

## Findings

Where the code does less than its comments or tests promise. Each is proved with its exact condition; all
but the last are also shown on one small input.

- A failed run does not always restore the tree. When an entry is nested two or more levels beneath a
  link that PreRemove took, the directories made in its place are not journaled, and the link cannot come
  back. A failed run is atomic at every failure point exactly if such entries are direct children
  (`Atomic.AtomicExactly`, `Examples.DeeperIsNotAtomic`).
- "Re-apply converges" after a failed commit (internal/engine/engine.go:288) needs `Recoverable`: where a
  new link leads to a file and prev had a target beneath that path, lstat answers ENOTDIR and the next
  planning is an error (`Crash.RecoverableExactly`, `Examples.BlockedIsStuck`).
- "PreRemove is always empty" in the drift repair (internal/engine/drift.go:30) fails exactly when a
  wanted link's place is taken by a tree of nothing but directories (`Drift.UnchangedPlansExactly`,
  `Examples.GuardMisses`).
- A copy can disappear in a successful run: if one that is left alone, or under --backup a fresh one, holds
  nothing but links equal to dropped records, stale removal empties it and pruning takes it. Where no
  pruning is refused these are the only entries a successful run misses (`Undercut.ConvergesExactly`,
  `Examples.CopyIsLost`, `Examples.FreshCopyIsLost`).
- A dry run can announce a removal that does not happen: under --backup a copy's old directory goes aside
  with a recorded link in it, which is not among the planner's marks. It happens only if the source brings
  the link back (`Reports.DryRunForetells`, `Examples.DryRunIsWrong`); otherwise the link is kept in the
  aside, and after a failed pointer move it is listed as unreached (`Failures.UnreachedExactly`).
- A --recopy run renames onto `<target>.layat-recopy-aside` without looking. After a run that was cut off,
  that file is what the user had; the next --recopy replaces it, and a failure does not bring it back. A
  failed --recopy run restores everything exactly if no such leftover is met and no link is stranded as
  above (`Leftovers.RecopyAtomicExactly`, `Examples.LeftoverIsLost`).
- A place-once copy does not look either: what appeared at its target after planning is overwritten, and
  removed if the run is unwound (`Leftovers.CopyIsUndoneExactly`, `Examples.ReplacedCopyIsLost`).
- The rmdir of PreRemove is `os.Remove`, so it also removes a file or link that took the directory's place
  after planning, and undo makes a directory of it (`Safety.RmDirTakesADirExactly`,
  `Safety.ReplacedDirectoryIsLost`).
- A pruned series reported as left untouched for want of permission keeps all its profile directories and
  its `.root`, but the first directory may have lost contents (`Prune.EmptyDirs`).

## Model

| member | source | states |
|---|---|---|
| `Trees.ReadDir` | internal/planner/planner.go:498-501 | the names of a directory: exactly its children, each once |
| `Manifests.ByTarget` | internal/planner/planner.go:328-337 | the table of a manifest holds an entry for every target, and only entries of the manifest |
| `Manifests.ByTargetIsExact` | internal/planner/planner.go:328-337 | with distinct targets the table finds exactly the entry |
| `Manifests.LaterWins` | internal/planner/planner.go:328-337 | of several entries with one target the table holds the last |
| `Manifests.LinkDestExactly` | internal/planner/planner.go:184-189 | the subpath is looked up within the source: two entries of one source lead to one place exactly if their subpaths agree |
| `Builder.PlanBuilder.Compute` | internal/planner/planner.go:193-319 | the loops over next and prev, with their shared plan and `preRemoved` table, come to exactly the declarative plan that every theorem below is about (what it holds: `Verdicts.PlanExactly`), or to an error on exactly the same inputs |
| `Builder.PlanBuilder.ClassifyAll` | internal/planner/planner.go:201-276 | the place side: fails exactly where some verdict is an error; otherwise six lists and the marks are those of the verdicts in order |
| `Builder.PlanBuilder.ClassifyLeftovers` | internal/planner/planner.go:280-316 | the remove side: fails exactly where some dropped target cannot be looked at |
| `Builder.PlanBuilder.ClassifyNested` | internal/planner/planner.go:210-237 | an entry beneath a symlink: conflict of the right kind, or one unlink of the ancestor however many entries share it |
| `Builder.PlanBuilder.PreRemoveOnce` | internal/planner/planner.go:215-218 | an ancestor link is scheduled once |
| `Builder.PlanBuilder.ClassifyLink` | internal/planner/planner.go:251-275 | a symlink entry under every kind of occupant adds what its verdict calls for and fails exactly on an error |
| `Builder.PlanBuilder.ClassifyCopy` | internal/planner/planner.go:362-399 | a copy entry: place-once, conversion of a recorded link, structure mismatch, foreign copy |
| `Builder.PlanBuilder.ClassifyExisting` | internal/planner/planner.go:376-398 | an existing copy target is compared in kind with its source before it is left alone or set aside |
| `Builder.PlanBuilder.AppendBackup` | internal/planner/planner.go:413-428 | the occupant goes aside, unless the way there is taken (conflict) or cannot be looked at (error) |
| `Builder.PlanBuilder.AppendAbsentPlacement` | internal/planner/planner.go:432-442 | one new link or one copy; an unknown method is an error |
| `Builder.PlanBuilder.AppendBackupOrConflict` | internal/planner/planner.go:403-409 | backup if asked for, otherwise the conflict of the caller |
| `Builder.PlanBuilder.ClassifyRealDirTarget` | internal/planner/planner.go:457-479 | a real directory at a link target: migration, backup of the whole directory, or conflict |
| `Builder.PlanBuilder.MarkDirEntriesPreRemoved` | internal/planner/planner.go:483-491 | exactly the recorded targets at or beneath the directory are taken off the remove side, in whatever order the table is walked |
| `Builder.PlanBuilder.ClassifyDirMigration` | internal/planner/planner.go:496-534 | the recursion with early exit computes the declarative migration |
| `Builder.PlanBuilder.AncestorSymlink` | internal/planner/planner.go:538-564 | the upward-closed walk finds the first symlink strictly above a target |
| `Builder.PlanBuilder.RecordedLink` | internal/planner/planner.go:341-351 | recorded by prev and still pointing where recorded |
| `Verdicts.PlanExactly` | internal/planner/planner.go:193-319 | the whole plan told by the two manifests and the tree alone: when there is one, and for every section what it holds and nothing else |
| `Verdicts.PlacesExactly` | internal/planner/planner.go:251-275 | a new link exactly where there is room, beneath a dropped recorded link, in place of a stale directory, or after a backup; a re-link exactly where a link stands, recorded or not as it points |
| `Verdicts.CopiesExactly` | internal/planner/planner.go:362-399 | a copy exactly where there is room, beneath a dropped recorded link, in place of a recorded link whose entry was a symlink, or after a backup |
| `Verdicts.LeftAloneExactly` | internal/planner/planner.go:374-394 | in an accepted plan a copy is left alone exactly if a node of its source's kind stands there that is no recorded link to be converted, and prev records it as a copy or --backup is off |
| `Verdicts.BackupsExactly` | internal/planner/planner.go:403-428 | exactly the occupants in the way go aside, each to its own free name, and only under --backup |
| `Verdicts.ConflictsExactly` | internal/planner/planner.go:210-237 | each kind of conflict exactly where its cause is on the tree |
| `Verdicts.PreRemovesExactly` | internal/planner/planner.go:457-534 | exactly what an entry of next needs gone first: its recorded ancestor link, the recorded link it replaces by a copy, all of a stale directory |
| `Verdicts.RemovesExactly` | internal/planner/planner.go:280-315 | exactly the links of prev, still as recorded, that next drops and nothing else has dealt with |
| `Verdicts.WarningsExactly` | internal/planner/planner.go:280-315 | each kind of warning exactly where its cause is; a foreign copy only where prev does not record a copy |
| `Verdicts.ReadableExactly` | internal/planner/planner.go:201-319 | there is no plan exactly if a file is on the way to a target, a method is unknown where it would be placed, the source of a copy that is there cannot be looked at, or a dropped link cannot |
| `PlanFacts.JudgeMeans` | internal/planner/planner.go:201-275 | what each verdict guarantees about the tree (absent, way clear, link above, recorded or not, migratable, aside free, same kind) |
| `PlanFacts.AncestorWalk` | internal/planner/planner.go:538-564 | a link found is the topmost one, with directories all the way to it; none found means no symlink on the way |
| `PlanFacts.LstatInside` | internal/planner/planner.go:251-275 | without a symlink on the way lstat speaks about the tree itself |
| `PlanFacts.UnlinksAreMarked` | internal/planner/planner.go:215-217 | every planned pre-unlink is taken off the remove side |
| `PlanFacts.MarkedIsPreRemoved` | internal/planner/planner.go:285-288 | whatever the remove side passes over as handled is pre-removed or leaves with a backed-up directory |
| `Migrations.MigratableExactly` | internal/planner/planner.go:496-534 | a directory is migrated if and only if everything beneath it is a directory or a recorded link that next drops |
| `Migrations.MigrateDirFacts` | internal/planner/planner.go:496-534 | the actions cover everything strictly beneath the directory, each path once, contents before containers; a refusal has a witness |
| `PlanFacts.PreRemovesOrdered` | internal/planner/planner.go:457-479 | over all entries of next together, each rmdir comes after everything beneath it and each unlink names a link as recorded; nothing is listed twice |
| `Migrations.OrderedRuns` | internal/engine/staleremove.go:38-73 | such a list runs front to back with no refusal and leaves exactly the listed paths gone |
| `Converge.StageOne` | internal/engine/engine.go:272-274 | PreRemove of any valid job goes through on the planned tree |
| `Converge.TargetIsReady` | internal/engine/engine.go:269-283 | after PreRemove and Backup every target to be planted is absent (or the link to be re-linked) and its way is clear |
| `Converge.NestedLinkGoes` | internal/planner/planner.go:214-225 | an ancestor link an entry needs gone is pre-removed |
| `Stages.BackupRuns` | internal/engine/backup.go:13-29 | backups whose targets and asides are apart all happen; each subtree is found again under its aside, and nothing else changed |
| `Stages.PlantsRun` | internal/engine/place.go:24-62 | placements and copies whose targets are apart and ready all happen; each target holds its content, its way is made of directories, the rest is as before |
| `Stages.DropsRun` | internal/engine/staleremove.go:17-33 | stale removal of entries whose link is not merely seen through a symlink goes through; it takes links as recorded and directories above them, nothing else |
| `Atomic.StagesChain` | internal/engine/engine.go:272-286 | the five stages chain: each is executable on the tree the one before left |
| `Undo.UndoIsExact` | internal/engine/undo.go:98-121 | for any legal sequence of writes that destroyed nothing their inverses cannot bring back: unwinding restores every node, adds nothing but made parent directories, and misses exactly the links with a made directory strictly beneath |
| `Undo.StepBack` | internal/engine/undo.go:124-154 | one inverse takes back one write, over any tree that differs from the expected one only by what made directories pin |
| `Undo.MadeSurvives` | internal/engine/place.go:11-19 | a made parent directory outlives every later inverse, so a pinned link never comes back |
| `Runs.FailedRunIsUndone` | internal/engine/engine.go:333-340 | the same for any list of actions none of which meets what it would destroy, cut after any number of primitive writes or in the middle of a recursive copy |
| `Atomic.FailureUnwinds` | internal/engine/engine.go:333-340 | the same for every plan, with or without --recopy; what is left over lies on the way to a target of next |
| `Atomic.DirectChildrenSuffice` | internal/engine/undo.go:95-97 | if every entry nested under a pre-removed link is its direct child, a failure anywhere puts every node back |
| `Atomic.ScheduleDoesNotDrift` | internal/engine/engine.go:269-286 | no action of a planned run meets what it would destroy: copies find their targets absent, planned empty directories are directories, and no leftover aside is overwritten |
| `Atomic.AtomicExactly` | internal/engine/undo.go:95-97 | ... and only if: a failed run is atomic at every failure point exactly under that condition |
| `Atomic.DeeperChildIsNotUndone` | internal/engine/undo.go:131-135 | a deeper nested entry always yields a failure point, before its own target is placed, from which the ancestor link does not come back |
| `Leftovers.RecopyAtomicExactly` | internal/engine/copy.go:45-82 | a failed --recopy run restores every node at every failure point if and only if it meets neither a copy with a leftover at its aside (both files or links) nor an entry deeper than directly beneath a link that goes; a copy is met unless an earlier recopy is refused |
| `Leftovers.UnstrandedIsRestored` | internal/engine/undo.go:95-154 | with neither, every failure point is undone completely |
| `Leftovers.StrandedIsNotRestored` | internal/engine/place.go:11-19 | a deeper nested entry that is reached always yields a failure point from which the link does not come back |
| `Leftovers.AsideIsLost` | internal/engine/copy.go:52-60 | otherwise the run can fail right after the rename, and what stood at the aside is not put back |
| `Leftovers.CopyIsUndoneExactly` | internal/engine/copy.go:26-40 | a place-once copy, unwound, leaves nothing at its target: everything is restored if and only if nothing stood there when its turn came |
| `Examples.LeftoverIsLost` | internal/engine/copy.go:54-57 | concrete: a file at `c.layat-recopy-aside`, left by an interrupted run, is lost by the next |
| `Examples.ReplacedCopyIsLost` | internal/engine/copy.go:31-36 | concrete: a file that appeared at a copy target is overwritten and then removed |
| `Turns.CopyStageDoesNotDrift` | internal/engine/copy.go:17-22 | until the turn of a copy entry nothing happens at its target or aside, so each copy finds what the plan saw |
| `Turns.RecopyAtTurn` | internal/engine/copy.go:50-67 | what a recopy finds at its target and its aside, told from the tree that was planned on |
| `Examples.DeeperIsNotAtomic` | internal/engine/undo.go:131-135 | concrete: link `a` recorded, next wants `a/b/c` |
| `Atomic.LinkAboveIsTheOne` | internal/planner/planner.go:204-225 | in an accepted plan, a link above a target is the one the planner found there |
| `Settle.Settles` | internal/engine/engine.go:269-286 | every link and file of the final tree accounted for, path by path |
| `Settle.SettlesDirs` | internal/engine/staleremove.go:75-114 | every directory of the final tree accounted for; a directory disappears only by migration, backup, or a dropped link beneath it |
| `Settle.DroppedIsDoomed` | internal/planner/planner.go:280-315 | a dropped link that is as recorded is pre-removed, carried off by a backup, or planned for removal |
| `Outcomes.Converges` | internal/engine/engine.go:269-286 | a conflict-free run without failures has every entry in place, every dropped recorded link gone, all other nodes accounted for (no dropped target beneath a copy), whatever the pruning may be refused |
| `Undercut.ConvergesExactly` | internal/engine/engine.go:269-286 | without that assumption, with --backup or without: an entry is in place if and only if it is not a copy, left alone or freshly made, that holds nothing but stale links and directories leading to them |
| `Undercut.InPlaceExactly` | internal/planner/planner.go:385-398 | the same, entry by entry |
| `Undercut.UncrossedLosesNothing` | internal/planner/planner.go:289-292 | no copy is lost where no dropped target lies beneath one |
| `Contents.CopyHoldsSource` | internal/engine/copy.go:26-40 | a copy that is made, without a backup, holds when the run is over exactly its source's content |
| `Contents.LinkBecomesCopy` | internal/planner/planner.go:365-373 | a recorded symlink whose entry becomes a copy is unlinked in PreRemove and copied, and its target then holds exactly the source's content |
| `Examples.LinkIsConverted` | internal/planner/planner.go:365-373 | concrete: link `a` recorded, next wants the file `f` within the same source there |
| `Contents.RecopyExactly` | internal/engine/copy.go:45-82 | a --recopy run gets through its copy stage exactly if every source is there and every copy that is there can be renamed aside; every copy target then holds exactly its source's content |
| `Examples.FreshCopyIsLost` | internal/planner/planner.go:385-398 | concrete: under --backup the stale link goes aside with the old copy, comes back with the new one, and takes it along |
| `Settle.CrossedAtFour` | internal/planner/planner.go:307-314 | beneath a copy that took the place of a backed-up one, a planned removal finds its link exactly if the source brings it |
| `Examples.CopyIsLost` | internal/planner/planner.go:385-398 | concrete: a foreign copy directory with one stale link in it is reported as left alone and then pruned away |
| `Emptied.StageSweepsExactly` | internal/engine/staleremove.go:14-33 | if no rmdir is refused, stale removal takes exactly those of its links that are as recorded and the directories that hold nothing but such links and directories leading to them, in any order of the list |
| `Outcomes.InPlaceNeedsNothing` | internal/planner/planner.go:193-319 | planning a manifest against itself where all of it is in place yields only re-links to the same destination |
| `Outcomes.SecondRunIsNoOp` | internal/planner/planner.go:251-260 | so a second run after a successful one has nothing to do |
| `Undercut.NothingToDoExactly` | internal/planner/planner.go:193-319 | ... and the plan is of that form only where everything is in place |
| `Undercut.SecondRunExactly` | internal/planner/planner.go:251-260 | a second run has nothing to do if and only if the first one lost no copy |
| `Conserve.NoFileIsLost` | internal/engine/engine.go:269-286 | without --recopy, stopped anywhere, every regular file is at its own path or under the one backup rename of the target above it; once unwound, at its own path |
| `Sessions.RepairLosesNoFile` | internal/engine/drift.go:31-50 | the drift repair, too, loses no regular file, wherever it stops |
| `Sessions.EndingsKeepFiles` | internal/engine/engine.go:249-302 | however Apply or Rollback ends without --recopy, every regular file is at its own path or under the one backup rename above it |
| `Conserve.FilesSurvive` | internal/engine/undo.go:124-154 | the same for any legal writes whose renames are backups |
| `Crash.AcceptedExactlyTidy` | internal/planner/planner.go:201-276 | for link-only manifests without --backup, an explicit condition on the tree under which the planner finds neither conflict nor error, in both directions |
| `Crash.StaysTidy` | internal/engine/engine.go:269-286 | every write of such a run keeps that condition |
| `Crash.StandsLater` | internal/engine/engine.go:289-293 | what lstat sees through the links a cut run placed is still no recorded link |
| `Crash.CrashConverges` | internal/engine/engine.go:289-293 | cut after any number of writes with the journal lost, the same manifests can be planned again and end with the same links and files |
| `Crash.RecoverableExactly` | internal/engine/engine.go:288-293 | re-planning meets neither conflict nor error from every cut if and only if no target of next leads to something that is no directory where a dropped target would have to pass through it |
| `Crash.UncommittedIsStuck` | internal/planner/planner.go:300-301 | otherwise a run that did everything but commit cannot be planned again |
| `Examples.BlockedIsStuck` | internal/planner/planner.go:300-301 | concrete: next turns `a` into a link to a file while prev had `a/b` |
| `Safety.PlannedUnlinksAreSafe` | internal/planner/planner.go:307-314 | a planned unlink names a link pointing where prev recorded, dropped by next or changed from symlink to copy |
| `Safety.NothingIsRemovedTwice` | internal/planner/planner.go:199-200 | no path is planned for removal twice, within a stage or across both |
| `Safety.RemovalsAreVerified` | internal/engine/staleremove.go:155-167 | on any tree under the root, whatever changed since planning, the removal stages take only links matching their record at that moment, empty directories, and what replaced a planned directory (a call whose way leads through a symlink is refused here) |
| `Safety.RmDirTakesADirExactly` | internal/engine/staleremove.go:41-53 | the planned rmdir removes any node that holds nothing; it is harmless exactly where that node still is a directory |
| `Safety.ReplacedDirectoryIsLost` | internal/engine/staleremove.go:49-53 | concrete: a file put where a planned empty directory was is removed, and unwinding makes a directory of it |
| `Effects.PreDropExactly` | internal/engine/staleremove.go:61-70 | on any tree: a pre-removal takes its link exactly while it is as recorded, and fails on anything else |
| `Effects.PreRmDirExactly` | internal/engine/staleremove.go:41-60 | on any tree: it takes what holds nothing, is content with what is not there, and fails on the rest |
| `Effects.BackupExactly` | internal/engine/backup.go:14-27 | on any tree: the occupant is renamed exactly if it is there and the aside is free |
| `Effects.PlaceNewExactly` | internal/engine/place.go:49-60 | on any tree: a link is made exactly where nothing stands and directories can be made down to it; nothing is ever replaced |
| `Effects.PlaceAgainExactly` | internal/engine/place.go:30-48 | on any tree: a re-link goes through exactly where a link stands, and changes nothing else |
| `Effects.CopyExactly` | internal/engine/copy.go:26-40 | on any tree: when a place-once copy goes through, and the tree after it |
| `Effects.DropExactly` | internal/engine/staleremove.go:17-33 | on any tree: a stale removal takes its link exactly while it is as recorded, and is no failure where it drifted |
| `Safety.PruningOrder` | internal/engine/staleremove.go:78-114 | innermost first, never the root, at most as many steps as the path is deep |
| `Safety.PruningIsExact` | internal/engine/staleremove.go:78-114 | an ancestor is pruned if and only if nothing but the chain down to the starting directory is left beneath it |
| `Safety.PruningTakesOnlyTheChain` | internal/engine/staleremove.go:78-114 | nothing else changes and the root stays |
| `Drift.UnchangedPlansExactly` | internal/engine/drift.go:28-35 | with prev equal to next nothing is removed and nothing unlinked; pre-removals are empty unless, and only unless, a wanted link is occupied by a tree of nothing but directories -- the one input on which the guard errs |
| `Examples.GuardMisses` | internal/engine/drift.go:33-35 | concrete: an empty directory where the unchanged manifest wants a link |
| `Drift.RepairConverges` | internal/engine/drift.go:36-50 | backup, the drifted links and the absent copies alone put every entry in place |
| `Drift.RepairOfNothing` | internal/engine/drift.go:39-50 | where everything is in place the repair consists of no action |
| `Sessions.FilterDrifted` | internal/engine/drift.go:39-45 | keeps exactly the placements that are no re-link of a recorded link |
| `Sessions.RepairDoesNotDrift` | internal/engine/drift.go:33-50 | with nothing to pre-remove, the repair meets nothing it would destroy |
| `Sessions.RepairDrift` | internal/engine/drift.go:31-50 | runs that schedule; fails with nothing written where something is to be pre-removed, and otherwise only at an action that cannot be done or for which the system refused a call, with everything taken back |
| `Sessions.CleanRepairConverges` | internal/engine/drift.go:31-50 | with no call refused the generation is kept exactly if nothing is to be pre-removed, and then every entry is in place |
| `Partition.NextIsPartitioned` | internal/planner/planner.go:201-276 | as multisets: the entries of next are those placed, copied, skipped and in conflict |
| `Partition.SkippedAreThere` | internal/planner/planner.go:385-398 | a skipped entry is a copy that exists with its source's kind |
| `Partition.BackupsArePaired` | internal/planner/planner.go:413-428 | every backup has its own placement or copy |
| `Partition.BackupIsPaired` | internal/planner/planner.go:413-428 | of the same entry, under the configured suffix |
| `Partition.DroppedMeetsOneFate` | internal/planner/planner.go:280-316 | a dropped entry of prev meets exactly one of removal, pre-removal, warning, absence, or departure with a backed-up directory, and which one |
| `Partition.PlanFollowsNext` | internal/planner/planner.go:201-276 | placements, copies and backups come in the order of next |
| `Partition.RemovalsFollowPrev` | internal/planner/planner.go:280-315 | stale removals come in the order of prev |
| `Reports.DryRunForetells` | internal/engine/engine.go:424-477 | without --recopy: the lists of a dry run are, in order, those of the successful run on the same tree, and its pruned directories the first that run prunes, if and only if no planned removal is of a link that goes aside with a copy and is not brought back by its source |
| `Reports.RunReports` | internal/engine/engine.go:272-286 | what a successful run reports in any case: the plan in order, but of the removals only those performed |
| `Reports.ReportedExactly` | internal/engine/engine.go:376-389 | which writes each list of the report tells of |
| `Reports.PreviewExactly` | internal/engine/engine.go:424-477 | which planned actions each list of a dry run tells of |
| `Examples.DryRunIsWrong` | internal/engine/engine.go:424-477 | concrete: under --backup the link `c/x` goes aside with the foreign copy `c`; its announced removal does not happen |
| `Reports.DropsReported` | internal/engine/staleremove.go:17-33 | stale removals report, in order, exactly those links of the list that stand as recorded |
| `Sessions.DryRun` | internal/engine/engine.go:424-477 | the report of the plan, conflicts included, and nothing written |
| `Failures.UnreachedCovers` | internal/engine/engine.go:376-419 | the unreached list holds exactly the planned targets not dealt with, each once, in plan order |
| `Failures.PlannedTargetsExactly` | internal/engine/engine.go:397-418 | what the list is drawn from: the targets of every section of the plan, and under --recopy of every copy of next |
| `Failures.UnreachedExactly` | internal/engine/generations.go:232-238 | after all stages went through, the failure report of a pointer move lists exactly such links, so nothing if and only if there is none |
| `Engine.Applier.Fail` | internal/engine/engine.go:376-419 | after a failure the list is that one, --recopy included, and no write of the run touched a target in it |
| `Engine.Applier.MarkUnreached` | internal/engine/engine.go:390-396 | one section of the plan after another |
| `Engine.Applier.EntryFailed` | internal/engine/engine.go:366-371 | only the first failed target is recorded |
| `Disks.Disk.Remove` | internal/engine/undo.go:127-134 | os.Remove on the tree: which of done, absent, not empty, and the tree after |
| `Disks.Disk.Rename` | internal/engine/undo.go:142-142 | the whole subtree changes its name, replacing a file or link by a file or link; a directory is never replaced |
| `Disks.Disk.RemoveAll` | internal/engine/undo.go:137-141 | everything at and beneath the path goes |
| `Disks.Disk.TryMkdirAll` | internal/engine/place.go:14-19 | outermost first; may stop on the way; refused before anything is made where an obstacle stands |
| `Disks.Disk.TryCopyTree` | internal/engine/copy.go:94-132 | the source's subtree over what gives way to it, or a part of it closed under parents |
| `Disks.Disk.TryRemoveAll` | internal/engine/reset.go:202-208 | as a forward call it may leave a part, still a tree |
| `Engine.Applier.PreRemoveLink` | internal/engine/staleremove.go:61-70 | re-verified; journaled with its destination; drift fails the stage |
| `Engine.Applier.PreRemoveDir` | internal/engine/staleremove.go:41-60 | absence is success without a report; contents fail the stage |
| `Engine.Applier.PreRemove` | internal/engine/staleremove.go:38-73 | the loop carries out its list, or writes a cut of it and names the target of the action that failed; it fails only where the system refused a call or the action cannot be done |
| `Engine.Applier.BackupOne` | internal/engine/backup.go:14-27 | refused where the aside exists; journaled after the rename |
| `Engine.Applier.Backup` | internal/engine/backup.go:13-29 | as for PreRemove |
| `Engine.Applier.RelinkOne` | internal/engine/place.go:30-48 | the unlink is journaled before the symlink is tried |
| `Engine.Applier.LinkNewOne` | internal/engine/place.go:55-60 | journaled once it is there |
| `Engine.Applier.PlaceOne` | internal/engine/place.go:25-60 | one placement of any kind, failing at any of its calls |
| `Engine.Applier.Place` | internal/engine/place.go:24-62 | as for PreRemove |
| `Engine.Applier.CopyOne` | internal/engine/copy.go:27-38 | opened in the journal before the copy, so that a partial copy is covered |
| `Engine.Applier.PlaceCopies` | internal/engine/copy.go:26-40 | as for PreRemove |
| `Engine.Applier.RecopyExisting` | internal/engine/copy.go:52-60 | renamed aside, journaled, then copied afresh |
| `Engine.Applier.RecopyAbsent` | internal/engine/copy.go:61-67 | journaled before its parents are made |
| `Engine.Applier.RecopyAll` | internal/engine/copy.go:45-82 | walks the manifest, not the plan |
| `Engine.Applier.MaterializeCopies` | internal/engine/copy.go:17-22 | one or the other |
| `Engine.Applier.DropOne` | internal/engine/staleremove.go:19-30 | a drifted link is kept without failing; a prune that is refused does not fail the stage; with no call refused nothing stops the pruning |
| `Engine.Applier.RemoveStale` | internal/engine/staleremove.go:17-33 | as for PreRemove, for some number of prunes let through after each removal, all of them where no call is refused |
| `Engine.Applier.PruneEmptyAncestors` | internal/engine/staleremove.go:78-114 | removes a first part of the exact chain, all of it if no call is refused |
| `Engine.Applier.PathHasSymlinkComponent` | internal/engine/staleremove.go:119-142 | true exactly if a symlink stands at or above the directory |
| `Engine.Applier.UndoOne` | internal/engine/undo.go:124-154 | the call-by-call inverse is the specified one |
| `Engine.Applier.Unwind` | internal/engine/undo.go:98-121 | the backward loop applies every inverse, last first, and clears the journal |
| `Engine.Applier.RunJournaled` | internal/engine/engine.go:333-340 | a failed stage leaves the unwound tree and an empty journal |
| `Engine.Applier.DiscardJournal` | internal/engine/undo.go:83-93 | takes nothing but what lies under recopy asides, and all of that where no call is refused; without recopy the tree is untouched |
| `Progress.RunGrows` | internal/engine/undo.go:46-79 | whatever a stage manages to write, the run stays legal and journal, report and attempts add up |
| `Progress.Completes` | internal/engine/place.go:21-23 | an action that completes is reported by exactly one write, under its own target |
| `Progress.CutOfStage` | internal/engine/engine.go:269-286 | what a failing stage wrote is a cut of what it would have written |
| `Progress.StuckAt` | internal/engine/engine.go:333-340 | an action that cannot be done keeps the list from going through |
| `Progress.FailedAfter` | internal/engine/engine.go:366-371 | a failed run names the target of the very action it stopped in, all before it having gone through; a directory has none |
| `Sessions.Execute` | internal/engine/engine.go:269-286 | all five stages in order; a failure in any ends in the unwound tree with the failed target and the unreached list, and comes only of a refused call or an action that cannot be done |
| `Sessions.Transact` | internal/engine/engine.go:269-296 | stages, then the pointer, then the journal: which of the three endings and why, with pointer and tree for each |
| `Sessions.Apply` | internal/engine/engine.go:142-303 | every way Apply can return, each exactly when: by the lock, the build, the plan, the conflicts, the source check, the unchanged generation, the stages and the pointer; with the pointer and the tree it leaves, from any tree, for any failures |
| `Sessions.Rollback` | internal/engine/generations.go:121-243 | the same engine from the current generation to the previous one: every ending exactly when, with pointer and tree for each, and the unreached list of a conflict, a failed stage and a failed pointer move |
| `Sessions.Profile.MoveTo` | internal/engine/engine.go:288-293 | the pointer moves or stays |
| `Sessions.FailedIsTakenBack` | internal/engine/engine.go:333-340 | a failed run leaves the original tree put back, up to directories on the way to a target of next and exactly the links such a directory lies beneath |
| `Sessions.EndStates` | internal/engine/engine.go:249-302 | (moved, converged); (unmoved, converged) only when the pointer alone failed; (unmoved, every entry in place) when the generation was kept; (unmoved, put back) after a stage failure, every node where nested entries are direct children; otherwise (unmoved, untouched) |
| `Sessions.CleanRunConverges` | internal/engine/engine.go:269-302 | with no call refused a run that can be carried out is not rolled back, and every entry is in place but the copies that hold nothing but stale links |
| `Sessions.ThroughConverges` | internal/engine/engine.go:288-302 | committed or not, a run that went through converges |
| `Sessions.KeptConverges` | internal/engine/engine.go:249-266 | a kept generation is repaired to have every entry in place |
| `Reset.SelectEntries` | internal/engine/reset.go:241-264 | all entries, or those named, in the order named; one unknown name refuses all |
| `Reset.RemoveCopies` | internal/engine/reset.go:200-213 | removed, failed and unreached copies are the planned ones in order; everything else of the tree stays, but for emptied ancestors, all of which go where no call is refused |
| `Reset.TakeDown` | internal/engine/reset.go:182-218 | links, then copies, and an account of both on every exit: at most the planned links and copies and emptied ancestors go, and what is reported removed is gone; with no call refused all of it goes and no emptied directory is left |
| `Reset.TearDown` | internal/engine/reset.go:72-218 | every exit, each exactly when: an unknown name or a target that cannot be looked at, a dry run, a refused confirmation; the first three change nothing and a preview tells what is planned; a failure accounts for all planned removals and bounds the tree; success takes down what was planned and nothing else |
| `Reset.PlannedExactly` | internal/engine/reset.go:121-148 | what is planned: of the entries chosen, the links that are still as recorded and the copies that are there |
| `Reset.SweptNoneHollow` | internal/engine/staleremove.go:78-114 | after the link stage, no prune refused, no directory above a removed link is empty |
| `Reset.StillNoneHollow` | internal/engine/reset.go:209-212 | the same after each copy |
| `Reset.LinkStageTakesDown` | internal/engine/reset.go:190-198 | the link stage takes the planned links and directories above them |
| `Reset.DropsAtMost` | internal/engine/staleremove.go:17-33 | stale removal, however far it got, takes no more than planned links and emptied directories above them |
| `Reset.AllLinksRemoved` | internal/engine/reset.go:198-198 | with every planned link standing, all of them are reported removed |
| `Prune.Host.TryAcquire` | internal/lock/lock.go:21-39 | a lock is had only where nobody holds it, while others come and go |
| `Prune.Lock.Release` | internal/lock/lock.go:42-52 | frees that lock and no other; releasing twice is harmless |
| `Prune.AcquireAll` | internal/engine/prune.go:268-285 | all locks of the series, or none: a refusal lets go of those taken |
| `Prune.ReleaseAll` | internal/engine/prune.go:269-273 | nothing is held afterwards |
| `Prune.EmptyDirs` | internal/engine/prune.go:300-307 | a directory is removed only under its own lock; a permission error before any removal leaves the series untouched |
| `Prune.RemoveUnderLocks` | internal/engine/prune.go:289-324 | names first, `.root` after all of them, the series after `.root` |
| `Prune.RemoveSeries` | internal/engine/prune.go:264-324 | whatever others do: own things only, each directory under its lock, all locks let go on every exit, a spared series keeps every directory and its `.root`; spared as locked exactly if a lock was refused, as denied exactly if the first removal was, removed exactly if nothing was refused and nothing failed |
| `Prune.FatedWork` | internal/engine/prune.go:289-324 | what decides the fate: a first removal that is denied spares the series, a later failure leaves it torn, none removes it |
| `Prune.PruneAll` | internal/engine/prune.go:173-190 | the same for each series of the run; goes on past spared series, stops at a torn one |
| `Prune.CandidatesSplit` | internal/engine/prune.go:171-190 | as multisets: removed, spared, the failing series and the untouched rest are the candidates |
| `Prune.JudgeExactly` | internal/engine/prune.go:225-248 | the verdict on one series: a candidate exactly if both reads succeeded and the root is gone, skipped for the first read that failed or for an unreadable root, kept exactly if the root is there |
| `Prune.ChosenExactly` | internal/engine/prune.go:208-249 | exactly the series whose back reference and names could be read and whose root is gone, each once, in ascending order |
| `Prune.SkippedExactly` | internal/engine/prune.go:225-248 | exactly the undecidable series, each once, for the first thing that could not be found out |
| `Prune.JudgeBase` | internal/engine/prune.go:196-251 | the loop computes those two lists |
| `Prune.JudgeBases` | internal/engine/prune.go:132-142 | both bases, the first before the second |
| `Prune.CandidatesExactly` | internal/engine/prune.go:127-142 | over all bases: exactly the series that could be read and whose root is gone, each once, base by base |
| `Prune.SkipsExactly` | internal/engine/prune.go:127-142 | over all bases: exactly the undecidable ones, each once, base by base |
| `Prune.Run` | internal/engine/prune.go:106-191 | the whole result: a dry run or a refusal takes no lock and removes nothing; otherwise the candidates are gone through in order; no lock is taken on and nothing removed of a series whose root is there; Removed are exactly those whose directory went, Locked exactly those refused a lock |
| `Prune.PrunedOrphans` | internal/engine/prune.go:237-248 | nothing but series whose root is gone is ever touched |
| `Prune.RemovedExactly` | internal/engine/prune.go:171-190 | reported as removed are exactly the candidates whose directory went |
| `Prune.LockedExactly` | internal/engine/prune.go:274-285 | reported as locked are exactly the series one of whose locks was refused |
| `Pool.StepKeeps` | cmd/layat/apply.go:476-493 | every step of any schedule keeps the invariant of the pool |
| `Pool.Progress` | cmd/layat/apply.go:476-493 | with at least one worker no state before completion is stuck |
| `Pool.StepCounts` | cmd/layat/apply.go:476-493 | every step brings the end closer by one |
| `Pool.PoolRefinesLoop` | cmd/layat/apply.go:476-493 | in every schedule: each index started once, min(jobs, n) workers and at most as many indices in flight, stuck exactly when done, and then the outcomes of the plain loop |
| `Pool.ForEach` | cmd/layat/apply.go:476-493 | the outcomes in order, whatever the schedule |
| `Pool.AggregateApply` | cmd/layat/apply.go:515-558 | counts and flushed output of the plain in-order loop, the counts summing to the number of configs |
| `Pool.TallySums` | cmd/layat/apply.go:545-557 | every config is counted once; failures are counted exactly if there is one that is no skip |
| `Pool.TallyCounts` | cmd/layat/apply.go:545-557 | each count is the number of outcomes of its kind |
| `Pool.TallyConcat` | cmd/layat/apply.go:545-557 | the tally of two runs in a row adds the counts and joins the output in that order |
| `Pool.TallyTexts` | cmd/layat/apply.go:545-549 | the output is that of the configs, one after the other |
| `Pool.ShownConcat` | cmd/layat/apply.go:592-597 | the output of two previews in a row is joined in that order |
| `Pool.AggregateDryRun` | cmd/layat/apply.go:570-610 | the output of the plain in-order loop; exit code 1 exactly on an error anywhere, 2 exactly on a conflict and no error |
| `Pool.ResolveJobs` | cmd/layat/apply.go:635-644 | the number given, the processor count for 0, or an error exactly for a negative number |
| `Pool.PrebuildAll` | cmd/layat/apply.go:424-449 | one outcome per selected config, its own |
| `Pool.ApplyAll` | cmd/layat/apply.go:268-355 | a config is applied only after its build went well, and comes to the build's error otherwise; the counts are the numbers of configs applied, held by another run and failed, the output theirs in order |
| `Writers.LinePrefixWriter.Write` | cmd/layat/generator_select.go:176-192 | one downstream write, the state after it that of the whole input so far |
| `Writers.PrefixedConcat` | cmd/layat/generator_select.go:170-192 | two writes are one write of both |
| `Writers.PrefixedIsPerLine` | cmd/layat/generator_select.go:168-192 | the output is the prefix before each line of the input |
| `Writers.StripRestores` | cmd/layat/generator_select.go:168-192 | taking the prefixes off again gives the input back |
| `Writers.LinesAreLines` | cmd/layat/generator_select.go:168-169 | lines hold no newline but at their end, and only the last may lack one |
| `Writers.LinesJoin` | cmd/layat/generator_select.go:168-169 | and they make up the text |
| `Writers.LineWriter.Write` | internal/generator/nixgen/nixgen.go:339-348 | nothing is lost; only whole lines go on |
| `Writers.LineWriter.Flush` | internal/generator/nixgen/nixgen.go:351-356 | everything has gone on, every write but the last ending in a newline |
| `Writers.WholeLines` | internal/generator/nixgen/nixgen.go:341-346 | the split is right after the last newline |
| `Writers.ChunkingDoesNotMatter` | internal/generator/nixgen/nixgen.go:331-333 | however the text was cut, each downstream write is whole prefixed lines and the total is the same |
| `Writers.Stream` | cmd/layat/generator_select.go:31-38 | both writers in a row, fed in any chunks and flushed |

## Left out

- nix, nix-env and git, root resolution, entrypoint discovery, TOML and JSON: build, commit, switch, the
  out-of-store source check and the listing of generations are oracles that succeed or fail.
- Command line, prompts, reports, warning texts, timestamps, the `--json` payload, generation numbers,
  ReplacedDests and RemovalEntries: data plumbing.
- Permission bits, umask and owner-write on copies; undo recreates a directory, not its mode.
- Path normalisation: targets are sequences of components, and a manifest's paths are canonical.
- A probe refused for lack of permission inside the tree (lstat, readlink, readdir while planning): only
  ENOTDIR and errors behind a symlink are modelled as probe errors.
- Changes to the tree by others between planning and the end of a run, save where a member is stated for
  an arbitrary tree (`Safety.RemovalsAreVerified`, the per-action methods of `Engine.Applier`).
- Writes through a symlink: a call on a path whose way leads through a symlink is refused by the model's
  disk, where the system would write outside the root. No planned action has such a path when its turn comes.
- Detection of conflicts between configs of one `apply --all`, generator precedence, the gitignore
  listing: short branches.
- Disks.Disk.TryCopyTree: a copy that meets something that does not give way (a directory for a file, a
  file for a directory, a link for a file) fails without writing, where the program may have written other
  parts first or written through the link; a copied subtree is written in no order beyond parents first.
- Engine.Applier.PathHasSymlinkComponent: an lstat error other than absence does not occur inside a valid tree.
- Engine.Applier.PruneEmptyAncestors: `isWithinRoot` has no counterpart, since paths lie under the root.
- Engine.Applier.DiscardJournal: an aside that cannot be removed is a warning; what is left of it is any part.
- Sessions.Apply: lock waiting, building and the source check are single answers (`Answers`); that two
  link-farms are the same implies that they hold the same manifest.
- Sessions.RepairDrift: on failure the model also fills the unreached list, which the program drops on
  this path together with the whole result.
- Sessions.Rollback: the generation list is reduced to the current and the previous manifest; the Backup
  stage it has in common with Apply has nothing to do.
- Reset.TearDown: a profile that was never applied to (nothing to do) and an error of the confirmation
  callback are not modelled.
- Safety.RemovalsAreVerified: a call whose way leads through a symlink is refused, where the program would
  unlink outside the root.
- Conserve.NoFileIsLost: not stated under --recopy, which discards local edits on purpose.
- Emptied.StageSweepsExactly: assumes that no rmdir of an empty directory is refused; without that,
  `Stages.DropsRun` bounds what goes.
- Crash.CrashConverges: also takes `Unseen` for granted; for symlink-only next manifests without --backup; a
  copy cut midway is taken for a placed one by the next run, so copies do not converge.
- Prune.Host.TryAcquire: locks belong to directory identities; a lock on an already unlinked directory is
  not modelled.
- Pool.AggregateApply: subjects and payloads of the report envelope are part of no outcome here.
- Writers.LineWriter.Write: the bytes alone; the tee that keeps a copy of stderr is left out.
