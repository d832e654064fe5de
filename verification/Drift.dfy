/** Planning a manifest against itself, and the repair of drift when a generation is skipped. */
module Drift {
  import opened Sequences
  import opened Paths
  import opened Trees
  import opened Manifests
  import opened Planner
  import opened Program
  import opened Runs
  import opened Migrations
  import opened PlanFacts
  import opened Stages
  import opened Converge
  import opened Turns
  import opened Outcomes

  /** The new generation records what the previous one recorded. */
  ghost predicate Unchanged(job: Job) {
    job.Valid() && job.prev == job.next && PrefixFree(job.next)
  }

  lemma RecordIsEntry(job: Job, e: Entry)
    requires Unchanged(job) && e in job.next
    ensures e.target in job.NextBy() && job.PrevBy()[e.target] == e
  {
    PrefixFreeIsDistinct(job.next);
    ByTargetIsExact(job.next, e);
  }

  /** With nothing dropped there is nothing to unlink. */
  lemma NothingIsUnlinked(job: Job, a: RemoveAction)
    requires Unchanged(job) && a in job.PreRemoves(job.next)
    ensures a.Rmdir?
  {
    var e := PreRemoveIsOf(job, job.next, a);
    AskedIsThere(job, e, a);
    JudgeMeans(job, e);
    RecordIsEntry(job, e);
  }

  /** Where the planner finds an empty directory, or a tree of nothing but directories, in the place of
      a wanted link. */
  ghost predicate Hollow(job: Job, e: Entry) {
    var t := job.view.tree;
    && e.how == Symlink && e.target in t && t[e.target] == Dir
    && forall q :: q in t && e.target < q ==> t[q] == Dir
  }

  lemma HollowMigrates(job: Job, e: Entry)
    requires Unchanged(job) && e in job.next && Hollow(job, e)
    ensures job.Judge(e).Migrate?
  {
    var t := job.view.tree;
    forall j | 1 <= j < |e.target| ensures e.target[..j] in t && t[e.target[..j]] == Dir {
      AncestorsAreDirs(t, e.target, e.target[..j]);
    }
    DirsAreNoLink(job, e.target, 1);
    MigratableExactly(job, e.target);
  }

  lemma MigratesIsHollow(job: Job, e: Entry)
    requires Unchanged(job) && e in job.next && job.Judge(e).Migrate?
    ensures Hollow(job, e)
  {
    JudgeMeans(job, e);
    MigratableExactly(job, e.target);
    forall q | q in job.view.tree && e.target < q ensures job.view.tree[q] == Dir {
      assert Takeable(job, q);
    }
  }

  /** An unchanged manifest plans no stale removal and no unlink. Its pre-removals are empty exactly
      when no wanted link's place is taken by a tree of nothing but directories: in that case the guard
      of the drift repair, which takes them to be always empty, fails. */
  lemma UnchangedPlansExactly(job: Job)
    requires Unchanged(job)
    ensures job.Removes(job.prev) == []
    ensures forall a :: a in job.PreRemoves(job.next) ==> a.Rmdir?
    ensures job.PreRemoves(job.next) != [] <==> exists e :: e in job.next && Hollow(job, e)
  {
    NothingLeft(job, job.prev);
    forall a | a in job.PreRemoves(job.next) ensures a.Rmdir? { NothingIsUnlinked(job, a); }
    if e :| e in job.next && Hollow(job, e) {
      HollowMigrates(job, e);
      MigratedOrConvertedGoes(job, e);
      assert At([]) == {};
    }
    if job.PreRemoves(job.next) != [] {
      var a := job.PreRemoves(job.next)[0];
      var e := PreRemoveIsOf(job, job.next, a);
      NothingIsUnlinked(job, a);
      AskedIsThere(job, e, a);
      MigratesIsHollow(job, e);
    }
  }

  // The repair.

  /** Links that already point at the recorded destination are left alone. */
  function Drifted(ps: seq<PlaceAction>): seq<PlaceAction> {
    if ps == [] then []
    else
      var p := ps[|ps| - 1];
      Drifted(ps[..|ps| - 1]) + (if p.kind == PlaceReplace then [] else [p])
  }

  /** repairDrift after its guard: Backup, the drifted placements, Copies or recopy. */
  function RepairSchedule(job: Job, recopy: bool): seq<Action> {
    BackupActions(job.Backups(job.next)) + (PlaceActions(Drifted(job.Places(job.next))) + CopyStage(job, recopy))
  }

  function RepairPlants(job: Job): seq<Action> {
    PlaceActions(Drifted(job.Places(job.next))) + CopyActions(job.Copies(job.next))
  }

  lemma {:induction false} DriftedIs(ps: seq<PlaceAction>, p: PlaceAction)
    ensures p in Drifted(ps) <==> p in ps && p.kind != PlaceReplace
  {
    if ps != [] {
      DriftedIs(ps[..|ps| - 1], p);
      LastOf(ps);
    }
  }

  /** Dropping actions from a list of placements apart from one another leaves such a list. */
  lemma {:induction false} DriftedApart(ps: seq<PlaceAction>)
    requires PlantsApart(PlaceActions(ps))
    ensures PlantsApart(PlaceActions(Drifted(ps)))
  {
    if ps != [] {
      var init, p := ps[..|ps| - 1], ps[|ps| - 1];
      var before, a := PlaceActions(init), DoPlace(p.entry, p.kind);
      SplitApart(before, a);
      DriftedApart(init);
      if p.kind == PlaceReplace {
        EmptyEnd(Drifted(init), []);
      } else {
        ButLast(Drifted(init), p);
        forall b | b in PlaceActions(Drifted(init)) ensures Plants(b) && Apart(b.entry.target, a.entry.target) {
          PlaceActionIs(Drifted(init), b);
          DriftedIs(init, PlaceAction(b.entry, b.kind));
          PlaceActionListed(init, PlaceAction(b.entry, b.kind));
        }
        ApartSnoc(PlaceActions(Drifted(init)), a);
      }
    }
  }

  lemma SplitApart(before: seq<Action>, a: Action)
    requires PlantsApart(before + [a])
    ensures PlantsApart(before) && Plants(a)
    ensures forall b :: b in before ==> Plants(b) && Apart(b.entry.target, a.entry.target)
  {
    var all := before + [a];
    assert all[|before|] == a;
    forall i | 0 <= i < |before| ensures all[i] == before[i] && Plants(before[i]) && Apart(before[i].entry.target, a.entry.target) {}
  }

  lemma RepairPlantIs(job: Job, a: Action)
    requires a in RepairPlants(job)
    ensures a in PlantActions(job)
    ensures a.DoPlace? ==> a.kind != PlaceReplace
  {
    if a in PlaceActions(Drifted(job.Places(job.next))) {
      PlaceActionIs(Drifted(job.Places(job.next)), a);
      DriftedIs(job.Places(job.next), PlaceAction(a.entry, a.kind));
      PlaceActionListed(job.Places(job.next), PlaceAction(a.entry, a.kind));
    } else {
      CopyActionIs(job.Copies(job.next), a);
    }
  }

  lemma RepairPlantIsListed(job: Job, a: Action)
    requires a in PlantActions(job) && !(a.DoPlace? && a.kind == PlaceReplace)
    ensures a in RepairPlants(job)
  {
    if a in PlaceActions(job.Places(job.next)) {
      PlaceActionIs(job.Places(job.next), a);
      DriftedIs(job.Places(job.next), PlaceAction(a.entry, a.kind));
      PlaceActionListed(Drifted(job.Places(job.next)), PlaceAction(a.entry, a.kind));
    }
  }

  lemma RepairPlantsApart(job: Job)
    requires job.Valid() && PrefixFree(job.next)
    ensures PlantsApart(RepairPlants(job))
  {
    hide Job.Judge;
    assert job.next[..|job.next|] == job.next;
    PlacesApart(job, |job.next|);
    CopiesApart(job, |job.next|);
    DriftedApart(job.Places(job.next));
    var places, copies := PlaceActions(Drifted(job.Places(job.next))), CopyActions(job.Copies(job.next));
    forall a, b | a in places && b in copies ensures Plants(a) && Plants(b) && Apart(a.entry.target, b.entry.target) {
      RepairApart(job, a, b);
    }
    ApartTogether(places, copies);
  }

  lemma RepairApart(job: Job, a: Action, b: Action)
    requires job.Valid() && PrefixFree(job.next)
    requires a in PlaceActions(Drifted(job.Places(job.next))) && b in CopyActions(job.Copies(job.next))
    ensures Plants(a) && Plants(b) && Apart(a.entry.target, b.entry.target)
  {
    hide Job.Judge;
    RepairPlantIs(job, a);
    PlaceActionIs(Drifted(job.Places(job.next)), a);
    CopyActionIs(job.Copies(job.next), b);
    PlantIsOf(job, a);
    PlantIsOf(job, b);
    EntriesApart(job.next, a.entry, b.entry);
  }

  /** The tree after the repair. */
  function Repaired(job: Job): Tree {
    End(job.view.world, T2(job), RepairPlants(job))
  }

  ghost predicate Repairable(job: Job) {
    Unchanged(job) && Orderly(job) && job.Accepted() && SourcesExist(job) && job.PreRemoves(job.next) == []
  }

  lemma NothingPreRemoved(job: Job)
    requires job.PreRemoves(job.next) == []
    ensures T1(job) == job.view.tree
  {
    assert At([]) == {};
  }

  lemma RepairRuns(job: Job)
    requires Repairable(job)
    ensures RunAll(job.view.world, job.view.tree, RepairSchedule(job, false)).done
    ensures End(job.view.world, job.view.tree, RepairSchedule(job, false)) == Repaired(job)
    ensures ValidTree(Repaired(job)) && Grown(job.view.world, T2(job), Repaired(job), RepairPlants(job))
  {
    hide Job.Judge;
    NothingPreRemoved(job);
    StageTwo(job);
    RepairPlantsApart(job);
    forall a | a in RepairPlants(job) ensures Plants(a) && PlantReady(job.view.world, T2(job), a) {
      RepairPlantIs(job, a);
      ActionIsReady(job, a);
    }
    PlantsRun(job.view.world, T2(job), RepairPlants(job));
    EndConcat(job.view.world, job.view.tree, BackupActions(job.Backups(job.next)), RepairPlants(job));
  }

  ghost predicate Replanted(job: Job, e: Entry) {
    exists a :: a in RepairPlants(job) && Plants(a) && a.entry == e
  }

  lemma ReplantsApart(job: Job, e: Entry, a: Action)
    requires job.Valid() && PrefixFree(job.next) && e in job.next && !Replanted(job, e) && a in RepairPlants(job)
    ensures !a.PreRmDir? && Apart(a.entry.target, e.target)
  {
    hide Job.Judge, RepairPlants, Plantable;
    RepairPlantIs(job, a);
    PlantIsOf(job, a);
    EntriesApart(job.next, a.entry, e);
  }

  lemma ApartIsUntouched(actions: seq<Action>, q: Path)
    requires forall a :: a in actions ==> !a.PreRmDir? && Apart(a.entry.target, q)
    ensures !Touched(actions, q)
  {
  }

  lemma NotReplanted(job: Job, e: Entry)
    requires Repairable(job) && e in job.next && !Replanted(job, e)
    ensures !Touched(RepairPlants(job), e.target)
  {
    hide *;
    var actions, q := RepairPlants(job), e.target;
    assert job.Valid() && PrefixFree(job.next) by { RepairableIsValid(job); }
    forall a | a in actions ensures !a.PreRmDir? && Apart(a.entry.target, q) {
      ReplantsApart(job, e, a);
    }
    ApartIsUntouched(actions, q);
  }

  lemma RepairableIsValid(job: Job)
    requires Repairable(job)
    ensures job.Valid() && PrefixFree(job.next)
  {
  }

  lemma NotBackedUp(job: Job, e: Entry)
    requires Repairable(job) && e in job.next && e.target in job.view.tree && !job.Judge(e).Aside?
    ensures e.target in T2(job) && T2(job)[e.target] == job.view.tree[e.target]
  {
    hide T2, Job.Judge;
    NothingPreRemoved(job);
    StageTwo(job);
    WayNotRenamed(job, e, e.target);
  }

  /** What the repair does not plant stays as it was. */
  lemma RepairLeaves(job: Job, e: Entry)
    requires Repairable(job) && e in job.next && e.target in job.view.tree && !job.Judge(e).Aside?
    requires !Replanted(job, e)
    ensures e.target in Repaired(job) && Repaired(job)[e.target] == job.view.tree[e.target]
  {
    hide T2, Repaired, Job.Judge, RepairPlants, Grown, Touched, Repairable;
    RepairRuns(job);
    NotReplanted(job, e);
    NotBackedUp(job, e);
    GrownElsewhere(job.view.world, T2(job), Repaired(job), RepairPlants(job), e.target);
  }

  lemma RepairGrows(job: Job, a: Action)
    requires Repairable(job) && a in RepairPlants(job)
    ensures Plants(a) && [] in Crop(job.view.world, a)
    ensures a.entry.target in Repaired(job) && Repaired(job)[a.entry.target] == Crop(job.view.world, a)[[]]
  {
    hide T2, Repaired, Job.Judge, RepairPlants, Grown;
    RepairPlantIs(job, a);
    RootIsPlanted(job, a);
    RepairRuns(job);
    GrownAt(job.view.world, T2(job), Repaired(job), RepairPlants(job), a);
  }

  lemma CropIsInPlace(job: Job, a: Action, u: Tree)
    requires Orderly(job) && SourcesExist(job) && a in PlantActions(job) && Plants(a) && [] in Crop(job.view.world, a)
    requires a.entry.target in u && u[a.entry.target] == Crop(job.view.world, a)[[]]
    ensures a.entry in job.next && InPlace(job.view.world, u, a.entry)
  {
    hide Job.Judge;
    PlantIsOf(job, a);
  }

  lemma RepairPlaces(job: Job, a: Action)
    requires Repairable(job) && a in RepairPlants(job) && Plants(a)
    ensures a.entry in job.next && InPlace(job.view.world, Repaired(job), a.entry)
  {
    hide Repaired, Job.Judge, RepairPlants, InPlace;
    RepairGrows(job, a);
    RepairPlantIs(job, a);
    CropIsInPlace(job, a, Repaired(job));
  }

  lemma RootIsPlanted(job: Job, a: Action)
    requires Orderly(job) && SourcesExist(job) && a in PlantActions(job)
    ensures Plants(a) && [] in Crop(job.view.world, a)
  {
    hide Job.Judge;
    PlantIsOf(job, a);
  }

  /** Entries the repair does not plant are in place already. */
  lemma SettledInPlace(job: Job, e: Entry)
    requires Unchanged(job) && job.Accepted() && e in job.next
    ensures !job.Judge(e).Broken? && !job.Judge(e).Clash? && !job.Judge(e).Nested? && !job.Judge(e).Converted?
    ensures job.Judge(e) == Relinked(true) || !Plantable(job, e) ==> InPlace(job.view.world, job.view.tree, e)
  {
    JudgeMeans(job, e);
    RecordIsEntry(job, e);
    if job.Judge(e).Clash? { ConflictIsListed(job, job.next, e); }
  }

  lemma SameInPlace(w: World, t: Tree, u: Tree, e: Entry)
    requires InPlace(w, t, e) && e.target in u && u[e.target] == t[e.target]
    ensures InPlace(w, u, e)
  {
  }

  lemma PlantedKind(job: Job, a: Action)
    requires job.Valid() && a in PlantActions(job) && a.DoPlace? && a.kind == PlaceReplace
    ensures job.Judge(a.entry) == Relinked(true)
  {
    PlantIsOf(job, a);
  }

  /** An entry is planted anew by the repair, or its target is untouched and in place. */
  lemma PlantedOrInPlace(job: Job, e: Entry)
    requires Repairable(job) && e in job.next && !Replanted(job, e)
    ensures !job.Judge(e).Aside? && InPlace(job.view.world, job.view.tree, e)
  {
    hide RepairPlants, InPlace;
    SettledInPlace(job, e);
    if Plantable(job, e) {
      var a := PlantIsListed(job, e);
      if a.DoPlace? && a.kind == PlaceReplace { PlantedKind(job, a); } else { RepairPlantIsListed(job, a); }
    }
  }

  lemma InPlaceIsThere(w: World, t: Tree, e: Entry)
    requires InPlace(w, t, e)
    ensures e.target in t
  {
  }

  lemma RepairPutsInPlace(job: Job, e: Entry)
    requires Repairable(job) && e in job.next
    ensures InPlace(job.view.world, Repaired(job), e)
  {
    hide Repaired, RepairPlants, InPlace, Job.Judge, Repairable;
    if a :| a in RepairPlants(job) && Plants(a) && a.entry == e {
      RepairPlaces(job, a);
    } else {
      PlantedOrInPlace(job, e);
      InPlaceIsThere(job.view.world, job.view.tree, e);
      RepairLeaves(job, e);
      SameInPlace(job.view.world, job.view.tree, Repaired(job), e);
    }
  }

  /** The drift repair of an accepted plan goes through and leaves every entry in place. */
  lemma RepairConverges(job: Job)
    requires Repairable(job)
    ensures RunAll(job.view.world, job.view.tree, RepairSchedule(job, false)).done
    ensures var u := End(job.view.world, job.view.tree, RepairSchedule(job, false));
            ValidTree(u) && forall e :: e in job.next ==> InPlace(job.view.world, u, e)
  {
    hide T2, Repaired;
    RepairRuns(job);
    forall e | e in job.next ensures InPlace(job.view.world, Repaired(job), e) { RepairPutsInPlace(job, e); }
  }

  lemma {:induction false} ReplacesDoNotDrift(m: Manifest)
    ensures Drifted(Replaces(m)) == []
  {
    if m != [] {
      var init, e := m[..|m| - 1], m[|m| - 1];
      ReplacesDoNotDrift(init);
      if e.how == Copy { EmptyEnd(Replaces(init), []); } else { ButLast(Replaces(init), PlaceAction(e, PlaceReplace)); }
    }
  }

  /** On a tree that holds the manifest already the repair has nothing to do. */
  lemma RepairOfNothing(next: Manifest, u: Tree, w: World, opts: Options)
    requires ValidTree(u) && ValidWorld(w) && PrefixFree(next) && forall e :: e in next ==> InPlace(w, u, e)
    ensures RepairSchedule(Job(next, next, View(u, w), opts), false) == []
  {
    InPlaceNeedsNothing(next, u, w, opts);
    ReplacesDoNotDrift(next);
  }
}
