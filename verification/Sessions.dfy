/** Apply and Rollback from lock to commit, and the states they can end in. */
module Sessions {
  import opened Sequences
  import opened Paths
  import opened Trees
  import opened Manifests
  import opened Planner
  import opened Builder
  import opened Steps
  import opened Undo
  import opened Program
  import opened Runs
  import opened Migrations
  import opened PlanFacts
  import opened Stages
  import opened Converge
  import opened Settle
  import opened Turns
  import opened Atomic
  import opened Outcomes
  import opened Conserve
  import opened Drift
  import opened Reports
  import opened Failures
  import opened Progress
  import opened Disks
  import opened Engine
  import Undercut

  // One run of the stages.

  /** The run has come through the actions `so`. */
  ghost predicate Came(a: Applier, t: Tree, so: seq<Action>)
    reads a, a.disk
  {
    && a.Running() && a.origin == t && a.disk.tree == Exec(t, a.events)
    && CarriedAll(a.disk.world, t, so, true, a.events)
  }

  /** The run failed: everything taken back, and what was not reached listed. */
  ghost predicate Ended(a: Applier, t: Tree, plan: Plan, next: Manifest, recopy: bool)
    reads a, a.disk
  {
    && a.unwound && a.journal == [] && a.disk.tree == Unwound(t, a.events)
    && a.report == Reported(a.events)
    && a.unreached == Unreached(PlannedTargets(plan, next, recopy), a.report.Done() + a.Failing())
    && forall e :: e in a.events && Attempts(e) ==> e.path !in a.unreached
  }

  /** A stage went through, or the run ended in it. */
  ghost predicate Passed(a: Applier, t: Tree, plan: Plan, next: Manifest, recopy: bool, so: seq<Action>, ok: bool)
    reads a, a.disk
  {
    if ok then Came(a, t, so)
    else Ended(a, t, plan, next, recopy) && CarriedAll(a.disk.world, t, so, false, a.events)
  }

  lemma StageJoins(a: Applier, t: Tree, so: seq<Action>, far: seq<Event>, stage: seq<Action>, ok: bool, delta: seq<Event>)
    requires CarriedAll(a.disk.world, t, so, true, far) && a.Reached(far, Exec(t, far), stage, ok, delta)
    ensures CarriedAll(a.disk.world, t, so + stage, ok, a.events)
    ensures a.disk.tree == Exec(t, a.events) && a.Stands(ok) && (ok ==> a.Running())
  {
    hide CarriedAll, Exec;
    BothCarried(a.disk.world, t, so, stage, far, ok, delta);
    ExecConcat(t, far, delta);
  }

  /** The failure path shared by the stages. */
  method GiveUp(a: Applier, plan: Plan, next: Manifest, recopy: bool)
    requires a.Stands(false)
    modifies a, a.disk
    ensures Ended(a, a.origin, plan, next, recopy) && a.events == old(a.events)
    ensures a.disk.faults == old(a.disk.faults) && a.failed == old(a.failed)
  {
    a.RunJournaled(false);
    a.Fail(plan, next, recopy);
  }

  /** What kept a stage from going through keeps the run from it. */
  lemma StageWithin(a: Applier, t: Tree, so: seq<Action>, far: seq<Event>, stage: seq<Action>, ok: bool, faults: nat, now: nat)
    requires CarriedAll(a.disk.world, t, so, true, far) && a.Within(now, Exec(t, far), stage, ok) && faults <= now
    ensures a.Within(faults, t, so + stage, ok)
  {
    hide RunAll, Exec;
    RunAllConcat(a.disk.world, t, so, stage);
  }

  /** runJournaled around a stage, and fail. */
  method Conclude(a: Applier, plan: Plan, next: Manifest, recopy: bool, ghost so: seq<Action>, ghost far: seq<Event>,
                  ghost stage: seq<Action>, ok: bool, ghost delta: seq<Event>, ghost faults: nat, ghost now: nat)
    requires CarriedAll(a.disk.world, a.origin, so, true, far)
    requires a.Reached(far, Exec(a.origin, far), stage, ok, delta)
    requires faults <= now && a.Within(now, Exec(a.origin, far), stage, ok)
    requires !ok ==> FailedAt(a.disk.world, Exec(a.origin, far), stage, delta, a.failed)
    modifies a, a.disk
    ensures Passed(a, a.origin, plan, next, recopy, so + stage, ok)
    ensures a.Within(faults, a.origin, so + stage, ok) && a.disk.faults == old(a.disk.faults)
    ensures !ok ==> FailedAt(a.disk.world, a.origin, so + stage, a.events, a.failed)
  {
    if !ok { FailedAfter(a.disk.world, a.origin, so, far, stage, delta, a.failed); }
    StageJoins(a, a.origin, so, far, stage, ok, delta);
    StageWithin(a, a.origin, so, far, stage, ok, faults, now);
    hide CarriedAll, Exec, Ended, Applier.Valid, ExcusedAll, FailedAt;
    if !ok { GiveUp(a, plan, next, recopy); }
  }

  method DoPreRemove(a: Applier, plan: Plan, next: Manifest, recopy: bool, ghost so: seq<Action>, ghost faults: nat) returns (ok: bool)
    requires faults <= a.disk.faults && Came(a, a.origin, so)
    modifies a, a.disk
    ensures Passed(a, a.origin, plan, next, recopy, so + PreActions(plan.preRemove), ok)
    ensures a.Within(faults, a.origin, so + PreActions(plan.preRemove), ok) && a.disk.faults >= old(a.disk.faults)
    ensures !ok ==> FailedAt(a.disk.world, a.origin, so + PreActions(plan.preRemove), a.events, a.failed)
  {
    hide CarriedAll, ExcusedAll, FailedAt, Exec, Passed, Applier.Reached;
    ghost var far, now, d := a.events, a.disk.faults, [];
    ok, d := a.PreRemove(plan.preRemove);
    Conclude(a, plan, next, recopy, so, far, PreActions(plan.preRemove), ok, d, faults, now);
  }

  method DoBackups(a: Applier, plan: Plan, next: Manifest, recopy: bool, ghost so: seq<Action>, ghost faults: nat) returns (ok: bool)
    requires faults <= a.disk.faults && Came(a, a.origin, so)
    requires forall b :: b in plan.backup ==> b.aside != [] && b.aside != b.entry.target && Parent(b.aside) == Parent(b.entry.target)
    modifies a, a.disk
    ensures Passed(a, a.origin, plan, next, recopy, so + BackupActions(plan.backup), ok)
    ensures a.Within(faults, a.origin, so + BackupActions(plan.backup), ok) && a.disk.faults >= old(a.disk.faults)
    ensures !ok ==> FailedAt(a.disk.world, a.origin, so + BackupActions(plan.backup), a.events, a.failed)
  {
    hide CarriedAll, ExcusedAll, FailedAt, Exec, Passed, Applier.Reached;
    ghost var far, now, d := a.events, a.disk.faults, [];
    ok, d := a.Backup(plan.backup);
    Conclude(a, plan, next, recopy, so, far, BackupActions(plan.backup), ok, d, faults, now);
  }

  method DoPlaces(a: Applier, plan: Plan, ps: seq<PlaceAction>, next: Manifest, recopy: bool, ghost so: seq<Action>, ghost faults: nat)
    returns (ok: bool)
    requires faults <= a.disk.faults && Came(a, a.origin, so)
    modifies a, a.disk
    ensures Passed(a, a.origin, plan, next, recopy, so + PlaceActions(ps), ok)
    ensures a.Within(faults, a.origin, so + PlaceActions(ps), ok) && a.disk.faults >= old(a.disk.faults)
    ensures !ok ==> FailedAt(a.disk.world, a.origin, so + PlaceActions(ps), a.events, a.failed)
  {
    hide CarriedAll, ExcusedAll, FailedAt, Exec, Passed, Applier.Reached;
    ghost var far, now, d := a.events, a.disk.faults, [];
    ok, d := a.Place(ps);
    Conclude(a, plan, next, recopy, so, far, PlaceActions(ps), ok, d, faults, now);
  }

  method DoCopies(a: Applier, job: Job, plan: Plan, recopy: bool, ghost so: seq<Action>, ghost faults: nat) returns (ok: bool)
    requires faults <= a.disk.faults && Came(a, a.origin, so) && plan.copies == job.Copies(job.next)
    modifies a, a.disk
    ensures Passed(a, a.origin, plan, job.next, recopy, so + CopyStage(job, recopy), ok)
    ensures a.Within(faults, a.origin, so + CopyStage(job, recopy), ok) && a.disk.faults >= old(a.disk.faults)
    ensures !ok ==> FailedAt(a.disk.world, a.origin, so + CopyStage(job, recopy), a.events, a.failed)
  {
    hide CarriedAll, ExcusedAll, FailedAt, Exec, Passed, Applier.Reached;
    ghost var far, now, d := a.events, a.disk.faults, [];
    ok, d := a.MaterializeCopies(job, plan, recopy);
    Conclude(a, plan, job.next, recopy, so, far, CopyStage(job, recopy), ok, d, faults, now);
  }

  method DoRemoves(a: Applier, plan: Plan, next: Manifest, recopy: bool, ghost so: seq<Action>, ghost faults: nat)
    returns (ok: bool, ghost limits: seq<nat>)
    requires faults <= a.disk.faults && Came(a, a.origin, so) && forall r :: r in plan.remove ==> r.Unlink?
    modifies a, a.disk
    ensures |limits| == |plan.remove| && Passed(a, a.origin, plan, next, recopy, so + DropActions(plan.remove, limits), ok)
    ensures a.Within(faults, a.origin, so + DropActions(plan.remove, limits), ok) && a.disk.faults >= old(a.disk.faults)
    ensures !ok ==> FailedAt(a.disk.world, a.origin, so + DropActions(plan.remove, limits), a.events, a.failed)
    ensures a.disk.faults == old(a.disk.faults) ==> Unlimited(plan.remove, limits)
  {
    hide CarriedAll, ExcusedAll, FailedAt, Exec, Passed, Applier.Reached;
    ghost var far, now, d := a.events, a.disk.faults, [];
    ok, d, limits := a.RemoveStale(plan.remove);
    Conclude(a, plan, next, recopy, so, far, DropActions(plan.remove, limits), ok, d, faults, now);
  }

  lemma BackupsAreSiblings(job: Job)
    requires job.Valid()
    ensures forall b :: b in job.Backups(job.next) ==>
              b.aside != [] && b.aside != b.entry.target && Parent(b.aside) == Parent(b.entry.target)
  {
    forall b | b in job.Backups(job.next)
      ensures b.aside != [] && b.aside != b.entry.target && Parent(b.aside) == Parent(b.entry.target)
    {
      BackupIs(job, b);
    }
  }

  /** Limits that stop no prune. */
  function NoLimits(job: Job): seq<nat> {
    seq(|job.Removes(job.prev)|, i requires 0 <= i < |job.Removes(job.prev)| => |job.Removes(job.prev)[i].At()|)
  }

  lemma NoLimitsInTheWay(job: Job)
    ensures Unlimited(job.Removes(job.prev), NoLimits(job))
  {
    hide Job.Leave;
    RemovesUnlink(job, job.prev);
    forall i | 0 <= i < |job.Removes(job.prev)| ensures job.Removes(job.prev)[i].Unlink? {
      assert job.Removes(job.prev)[i] in job.Removes(job.prev);
    }
  }

  ghost function StageOf(job: Job, recopy: bool, limits: seq<nat>, n: nat): seq<Action>
    requires |limits| == |job.Removes(job.prev)|
  {
    if n == 1 then PreActions(job.PreRemoves(job.next))
    else if n == 2 then BackupActions(job.Backups(job.next))
    else if n == 3 then PlaceActions(job.Places(job.next))
    else if n == 4 then CopyStage(job, recopy)
    else DropsOf(job, limits)
  }

  /** The actions up to and with the n-th stage. */
  ghost function Upto(job: Job, recopy: bool, limits: seq<nat>, n: nat): seq<Action>
    requires |limits| == |job.Removes(job.prev)|
  {
    if n == 0 then [] else Upto(job, recopy, limits, n - 1) + StageOf(job, recopy, limits, n)
  }

  lemma UptoStep(job: Job, recopy: bool, limits: seq<nat>, n: nat)
    requires |limits| == |job.Removes(job.prev)|
    ensures Upto(job, recopy, limits, 0) == []
    ensures n > 0 ==> Upto(job, recopy, limits, n) == Upto(job, recopy, limits, n - 1) + StageOf(job, recopy, limits, n)
  {
    hide StageOf;
  }

  lemma StagesAre(job: Job, recopy: bool, limits: seq<nat>)
    requires |limits| == |job.Removes(job.prev)|
    ensures StageOf(job, recopy, limits, 1) == PreActions(job.PreRemoves(job.next))
    ensures StageOf(job, recopy, limits, 2) == BackupActions(job.Backups(job.next))
    ensures StageOf(job, recopy, limits, 3) == PlaceActions(job.Places(job.next))
    ensures StageOf(job, recopy, limits, 4) == CopyStage(job, recopy)
    ensures StageOf(job, recopy, limits, 5) == DropsOf(job, limits)
  {
    hide PreActions, BackupActions, PlaceActions, CopyStage, DropsOf;
    hide Job.PreRemoves, Job.Backups, Job.Places, Job.Removes, Job.Judge, Job.Leave;
  }

  lemma ScheduleIsChain(job: Job, recopy: bool, limits: seq<nat>)
    requires |limits| == |job.Removes(job.prev)|
    ensures Schedule(job, recopy, limits)
            == PreActions(job.PreRemoves(job.next)) + BackupActions(job.Backups(job.next)) + PlaceActions(job.Places(job.next))
               + CopyStage(job, recopy) + DropsOf(job, limits)
  {
    hide PreActions, BackupActions, PlaceActions, CopyStage, DropsOf;
  }

  lemma UptoAll(job: Job, recopy: bool, limits: seq<nat>)
    requires |limits| == |job.Removes(job.prev)|
    ensures Upto(job, recopy, limits, 5) == Schedule(job, recopy, limits)
  {
    hide *;
    UptoStep(job, recopy, limits, 1);
    UptoStep(job, recopy, limits, 2);
    UptoStep(job, recopy, limits, 3);
    UptoStep(job, recopy, limits, 4);
    UptoStep(job, recopy, limits, 5);
    StagesAre(job, recopy, limits);
    NothingFirst(PreActions(job.PreRemoves(job.next)));
    ScheduleIsChain(job, recopy, limits);
  }

  lemma NothingFirst<T>(a: seq<T>)
    ensures [] + a == a
  {
  }

  /** A run that ended in an earlier stage is a cut of the schedule. */
  lemma {:induction false} EndedEarly(w: World, t: Tree, job: Job, recopy: bool, limits: seq<nat>, n: nat, cut: seq<Event>)
    requires |limits| == |job.Removes(job.prev)| && 0 < n <= 5
    requires CarriedAll(w, t, Upto(job, recopy, limits, n), false, cut)
    ensures CutOf(cut, RunAll(w, t, Schedule(job, recopy, limits)).events)
    decreases 5 - n
  {
    hide *;
    if n == 5 {
      UptoAll(job, recopy, limits);
      FailedIsCut(w, t, Schedule(job, recopy, limits), cut);
    } else {
      CutOfLonger(w, t, Upto(job, recopy, limits, n), StageOf(job, recopy, limits, n + 1), cut);
      UptoStep(job, recopy, limits, n + 1);
      EndedEarly(w, t, job, recopy, limits, n + 1, cut);
    }
  }

  lemma FailedIsCut(w: World, t: Tree, actions: seq<Action>, cut: seq<Event>)
    requires CarriedAll(w, t, actions, false, cut)
    ensures CutOf(cut, RunAll(w, t, actions).events)
  {
  }

  /** Until the last stage the limits do not matter. */
  lemma {:induction false} UptoFour(job: Job, recopy: bool, limits: seq<nat>, other: seq<nat>, n: nat)
    requires |limits| == |job.Removes(job.prev)| && |other| == |limits| && n <= 4
    ensures Upto(job, recopy, limits, n) == Upto(job, recopy, other, n)
  {
    hide PreActions, BackupActions, PlaceActions, CopyStage, DropsOf;
    hide Job.PreRemoves, Job.Backups, Job.Places, Job.Removes, Job.Judge, Job.Leave;
    if n > 0 { UptoFour(job, recopy, limits, other, n - 1); }
  }

  /** PreRemove, Backup, Place, Copies, Remove; a failure in any of them takes everything back. */
  method Execute(a: Applier, job: Job, plan: Plan, recopy: bool) returns (ok: bool, ghost limits: seq<nat>)
    requires a.Running() && a.events == [] && a.origin == job.view.tree && a.disk.world == job.view.world
    requires job.Valid() && plan == job.ThePlan()
    modifies a, a.disk
    ensures |limits| == |job.Removes(job.prev)|
    ensures ok ==> Came(a, job.view.tree, Schedule(job, recopy, limits))
    ensures !ok ==> Ended(a, job.view.tree, plan, job.next, recopy) && Stops(job, recopy, limits, a.events)
    ensures a.Within(old(a.disk.faults), job.view.tree, Schedule(job, recopy, limits), ok)
    ensures a.disk.faults == old(a.disk.faults) ==> Unlimited(job.Removes(job.prev), limits)
    ensures !ok ==> FailedAt(job.view.world, job.view.tree, Schedule(job, recopy, limits), a.events, a.failed)
  {
    hide *;
    ghost var faults := a.disk.faults;
    var next := job.next;
    ghost var w, t := job.view.world, job.view.tree;
    PlanIs(job, plan);
    limits := NoLimits(job);
    NoLimitsInTheWay(job);
    ghost var so := Upto(job, recopy, limits, 0);
    Fresh(a, job, recopy, limits);
    StagesAre(job, recopy, limits);
    ok := DoPreRemove(a, plan, next, recopy, so, faults);
    so := NextStage(a, job, plan, recopy, limits, 1, so, ok, faults);
    if !ok { return; }
    BackupsAreSiblings(job);
    ok := DoBackups(a, plan, next, recopy, so, faults);
    so := NextStage(a, job, plan, recopy, limits, 2, so, ok, faults);
    if !ok { return; }
    ok := DoPlaces(a, plan, plan.place, next, recopy, so, faults);
    so := NextStage(a, job, plan, recopy, limits, 3, so, ok, faults);
    if !ok { return; }
    ok := DoCopies(a, job, plan, recopy, so, faults);
    so := NextStage(a, job, plan, recopy, limits, 4, so, ok, faults);
    if !ok { return; }
    RemovesUnlink(job, job.prev);
    ghost var chosen;
    ok, chosen := DoRemoves(a, plan, next, recopy, so, faults);
    UptoFour(job, recopy, limits, chosen, 4);
    limits := chosen;
    LastDrops(job, limits);
    StagesAre(job, recopy, limits);
    so := NextStage(a, job, plan, recopy, limits, 5, so, ok, faults);
    UptoAll(job, recopy, limits);
  }

  lemma PlanIs(job: Job, plan: Plan)
    requires plan == job.ThePlan()
    ensures plan.place == job.Places(job.next) && plan.copies == job.Copies(job.next) && plan.remove == job.Removes(job.prev)
    ensures plan.preRemove == job.PreRemoves(job.next) && plan.backup == job.Backups(job.next)
    ensures |NoLimits(job)| == |job.Removes(job.prev)|
  {
    hide Job.Judge, Job.Places, Job.Copies, Job.Removes, Job.PreRemoves, Job.Backups;
  }

  lemma LastDrops(job: Job, limits: seq<nat>)
    requires |limits| == |job.Removes(job.prev)|
    ensures forall r :: r in job.Removes(job.prev) ==> r.Unlink?
    ensures DropsOf(job, limits) == DropActions(job.Removes(job.prev), limits)
  {
    hide Job.Leave;
    RemovesUnlink(job, job.prev);
  }

  lemma Fresh(a: Applier, job: Job, recopy: bool, limits: seq<nat>)
    requires a.Running() && a.events == [] && a.origin == job.view.tree && |limits| == |job.Removes(job.prev)|
    ensures Came(a, a.origin, Upto(job, recopy, limits, 0)) && Upto(job, recopy, limits, 0) == []
  {
    NothingCarried(a.disk.world, a.origin);
    NothingWritten(a.origin);
  }

  /** From one stage to the next, or out of the run. */
  lemma NextStage(a: Applier, job: Job, plan: Plan, recopy: bool, limits: seq<nat>, n: nat, so: seq<Action>, ok: bool,
                  faults: nat)
    returns (upto: seq<Action>)
    requires |limits| == |job.Removes(job.prev)| && 0 < n <= 5 && so == Upto(job, recopy, limits, n - 1)
    requires a.origin == job.view.tree && a.disk.world == job.view.world
    requires Passed(a, a.origin, plan, job.next, recopy, so + StageOf(job, recopy, limits, n), ok)
    requires a.Within(faults, a.origin, so + StageOf(job, recopy, limits, n), ok)
    requires !ok ==> FailedAt(a.disk.world, a.origin, so + StageOf(job, recopy, limits, n), a.events, a.failed)
    ensures upto == Upto(job, recopy, limits, n)
    ensures ok ==> Came(a, a.origin, upto)
    ensures !ok ==> Ended(a, job.view.tree, plan, job.next, recopy) && Stops(job, recopy, limits, a.events)
    ensures a.Within(faults, job.view.tree, Schedule(job, recopy, limits), ok)
    ensures !ok ==> FailedAt(job.view.world, job.view.tree, Schedule(job, recopy, limits), a.events, a.failed)
  {
    hide StageOf, Came, Ended, CarriedAll, Schedule, CutOf, RunAll, FailedAt;
    UptoStep(job, recopy, limits, n);
    upto := Upto(job, recopy, limits, n);
    if !ok {
      EndedEarly(job.view.world, job.view.tree, job, recopy, limits, n, a.events);
      StuckEarly(job.view.world, job.view.tree, job, recopy, limits, n);
      UptoIsPart(job, recopy, limits, n);
      FailedLonger(job.view.world, job.view.tree, upto, Schedule(job, recopy, limits), a.events, a.failed);
    }
  }

  lemma {:induction false} UptoIsPart(job: Job, recopy: bool, limits: seq<nat>, n: nat)
    requires |limits| == |job.Removes(job.prev)| && n <= 5
    ensures Upto(job, recopy, limits, n) <= Schedule(job, recopy, limits)
    decreases 5 - n
  {
    hide *;
    if n == 5 {
      UptoAll(job, recopy, limits);
    } else {
      UptoStep(job, recopy, limits, n + 1);
      UptoIsPart(job, recopy, limits, n + 1);
    }
  }

  /** A run that cannot get through one of its stages cannot get through. */
  lemma {:induction false} StuckEarly(w: World, t: Tree, job: Job, recopy: bool, limits: seq<nat>, n: nat)
    requires |limits| == |job.Removes(job.prev)| && 0 < n <= 5
    ensures !RunAll(w, t, Upto(job, recopy, limits, n)).done ==> !RunAll(w, t, Schedule(job, recopy, limits)).done
    decreases 5 - n
  {
    hide *;
    if n == 5 {
      UptoAll(job, recopy, limits);
    } else {
      UptoStep(job, recopy, limits, n + 1);
      NotDoneLonger(w, t, Upto(job, recopy, limits, n), StageOf(job, recopy, limits, n + 1));
      StuckEarly(w, t, job, recopy, limits, n + 1);
    }
  }

  lemma NotDoneLonger(w: World, t: Tree, a: seq<Action>, b: seq<Action>)
    ensures !RunAll(w, t, a).done ==> !RunAll(w, t, a + b).done
  {
    hide RunAll, Exec;
    RunAllConcat(w, t, a, b);
  }

  // The drift repair of a skipped generation.

  method FilterDrifted(ps: seq<PlaceAction>) returns (r: seq<PlaceAction>)
    ensures r == Drifted(ps)
  {
    r := [];
    for i := 0 to |ps|
      invariant r == Drifted(ps[..i])
    {
      Prefix(ps, i + 1);
      if ps[i].kind != PlaceReplace { r := r + [ps[i]]; } else { EmptyEnd(r, []); }
    }
    Whole(ps);
  }

  /** Refused as a whole, or stopped at one of its actions. */
  ghost predicate RepairFailed(job: Job, recopy: bool, events: seq<Event>, failed: Option<Path>) {
    if job.PreRemoves(job.next) != [] then events == [] && failed == None
    else FailedAt(job.view.world, job.view.tree, RepairSchedule(job, recopy), events, failed)
  }

  /** Backup, what drifted, copies; refused as a whole if anything was planned to be pre-removed. */
  method RepairDrift(a: Applier, job: Job, plan: Plan, recopy: bool) returns (ok: bool)
    requires a.Running() && a.events == [] && a.origin == job.view.tree && a.disk.world == job.view.world
    requires job.Valid() && plan == job.ThePlan()
    modifies a, a.disk
    ensures ok ==> plan.preRemove == [] && Came(a, job.view.tree, RepairSchedule(job, recopy))
    ensures !ok ==> Ended(a, job.view.tree, plan, job.next, recopy)
    ensures !ok ==> CutOf(a.events, RunAll(job.view.world, job.view.tree, RepairSchedule(job, recopy)).events)
    ensures plan.preRemove != [] ==> !ok && a.events == []
    ensures plan.preRemove == [] ==> a.Within(old(a.disk.faults), job.view.tree, RepairSchedule(job, recopy), ok)
    ensures a.disk.faults >= old(a.disk.faults)
    ensures !ok ==> RepairFailed(job, recopy, a.events, a.failed)
  {
    ghost var faults := a.disk.faults;
    var next := job.next;
    ghost var w, t := job.view.world, job.view.tree;
    ghost var first := BackupActions(plan.backup);
    ghost var second := PlaceActions(Drifted(plan.place));
    ghost var third := CopyStage(job, recopy);
    BackupsAreSiblings(job);
    NothingCarried(w, t);
    NothingWritten(t);
    NothingFirst(first);
    RepairChain(job, plan, recopy);
    hide *;
    NotDoneLonger(w, t, first, second + third);
    NotDoneLonger(w, t, first + second, third);
    RepairFailedIs(job, recopy);
    if plan.preRemove != [] {
      StandsStill(a);
      GiveUp(a, plan, next, recopy);
      NothingIsCut(w, t, RepairSchedule(job, recopy));
      return false;
    }
    ok := DoBackups(a, plan, next, recopy, [], faults);
    if !ok {
      CutOfLonger(w, t, first, second + third, a.events);
      FailedLonger(w, t, first, first + (second + third), a.events, a.failed);
      FailedIsCut(w, t, RepairSchedule(job, recopy), a.events);
      return;
    }
    var drifted := FilterDrifted(plan.place);
    ok := DoPlaces(a, plan, drifted, next, recopy, first, faults);
    if !ok {
      CutOfLonger(w, t, first + second, third, a.events);
      FailedLonger(w, t, first + second, (first + second) + third, a.events, a.failed);
      FailedIsCut(w, t, RepairSchedule(job, recopy), a.events);
      return;
    }
    ok := DoCopies(a, job, plan, recopy, first + second, faults);
    if !ok { FailedIsCut(w, t, RepairSchedule(job, recopy), a.events); }
  }

  lemma RepairChain(job: Job, plan: Plan, recopy: bool)
    requires plan == job.ThePlan()
    ensures plan.preRemove == job.PreRemoves(job.next) && plan.copies == job.Copies(job.next)
    ensures var a, b, c := BackupActions(plan.backup), PlaceActions(Drifted(plan.place)), CopyStage(job, recopy);
            RepairSchedule(job, recopy) == a + (b + c) == (a + b) + c
    ensures forall b :: b in plan.backup <==> b in job.Backups(job.next)
  {
    hide Job.PreRemoves, Job.Backups, Job.Places, Job.Copies, Job.Removes, BackupActions, PlaceActions, Drifted, CopyStage;
    Associates3(BackupActions(plan.backup), PlaceActions(Drifted(plan.place)), CopyStage(job, recopy));
  }

  lemma RepairFailedIs(job: Job, recopy: bool)
    ensures job.PreRemoves(job.next) != [] ==> RepairFailed(job, recopy, [], None)
    ensures job.PreRemoves(job.next) == [] ==> forall es, failed ::
              FailedAt(job.view.world, job.view.tree, RepairSchedule(job, recopy), es, failed) ==>
                RepairFailed(job, recopy, es, failed)
  {
    hide Job.PreRemoves, FailedAt, RepairSchedule;
  }

  lemma Associates3<T>(a: seq<T>, b: seq<T>, c: seq<T>)
    ensures (a + b) + c == a + (b + c)
  {
  }

  lemma StandsStill(a: Applier)
    requires a.Running()
    ensures a.Stands(false)
  {
  }

  lemma NothingIsCut(w: World, t: Tree, actions: seq<Action>)
    ensures CutOf([], RunAll(w, t, actions).events)
  {
  }

  lemma RepairIs(job: Job, recopy: bool, a: Action)
    requires job.Valid() && a in RepairSchedule(job, recopy)
    ensures !a.PreRmDir? && !a.PreDrop? && !a.DoDrop? && a.entry in job.next
    ensures a.DoBackup? ==> a.aside == WithSuffix(a.entry.target, job.opts.Suffix())
    ensures a.DoRecopy? ==> recopy
  {
    hide Job.Judge, CopyStage;
    if a in BackupActions(job.Backups(job.next)) {
      BackupActionIs(job.Backups(job.next), a);
      BackupIs(job, BackupAction(a.entry, a.aside));
    } else if a in PlaceActions(Drifted(job.Places(job.next))) {
      PlaceActionIs(Drifted(job.Places(job.next)), a);
      DriftedIs(job.Places(job.next), PlaceAction(a.entry, a.kind));
      PlaceIsOf(job, job.next, PlaceAction(a.entry, a.kind));
    } else {
      CopyStageIs(job, recopy, a);
    }
  }

  lemma RepairSpaced(job: Job, recopy: bool)
    requires OrderlyFor(job, recopy)
    ensures Spaced(RepairSchedule(job, recopy))
  {
    hide RepairSchedule, Job.Judge;
    var actions := RepairSchedule(job, recopy);
    forall a, b | a in actions && b in actions && a.Claims() && b.MakesParents()
      ensures !(a.entry.target < b.entry.target)
      ensures a.RenamesAside() ==> !(a.AsidePath() < b.entry.target)
    {
      RepairIs(job, recopy, a);
      RepairIs(job, recopy, b);
      if a.entry != b.entry { EntriesApart(job.next, a.entry, b.entry); }
    }
  }

  /** What unwinding promises of any failed run of this job's entries: everything is put back but for
      directories on the way to targets, and the links such a directory lies beneath. */
  ghost predicate TakenBack(job: Job, r: Tree) {
    exists made: set<Path> :: PutBack(job.view.tree, r, made) && OnTheWay(job.next, made)
  }

  ghost predicate OnTheWay(next: Manifest, made: set<Path>) {
    forall m :: m in made ==> exists e :: e in next && m < e.target
  }

  lemma PutBackIsTakenBack(job: Job, r: Tree, made: set<Path>)
    requires PutBack(job.view.tree, r, made)
    requires forall m :: m in made ==> exists e :: e in job.next && m < e.target
    ensures TakenBack(job, r)
  {
    assert OnTheWay(job.next, made);
  }

  lemma FailedIsTakenBack(job: Job, recopy: bool, limits: seq<nat>, cut: seq<Event>)
    requires OrderlyFor(job, recopy) && |limits| == |job.Removes(job.prev)| && Stops(job, recopy, limits, cut)
    ensures TakenBack(job, Unwound(job.view.tree, cut))
  {
    FailureUnwinds(job, recopy, limits, cut);
    hide Stops, Unwound, Job.Judge, PutBack, TakenBack, Made;
    PutBackIsTakenBack(job, Unwound(job.view.tree, cut), Made(cut));
  }

  lemma DriftedAreLinks(job: Job)
    requires job.Valid()
    ensures LinksOnly(job.next, PlaceActions(Drifted(job.Places(job.next))))
  {
    PlacesAreLinks(job);
    hide Job.Judge;
    forall a | a in PlaceActions(Drifted(job.Places(job.next)))
      ensures a.DoPlace? && a.entry in job.next && a.entry.how == Symlink
    {
      PlaceActionIs(Drifted(job.Places(job.next)), a);
      DriftedIs(job.Places(job.next), PlaceAction(a.entry, a.kind));
      PlaceActionListed(job.Places(job.next), PlaceAction(a.entry, a.kind));
    }
  }

  /** Where nothing is to be pre-removed, the repair meets nothing it would destroy. */
  lemma RepairDoesNotDrift(job: Job, recopy: bool)
    requires OrderlyFor(job, recopy) && job.PreRemoves(job.next) == []
    ensures NoDrift(job.view.world, job.view.tree, RepairSchedule(job, recopy))
  {
    hide Gentle, NoDrift, T2, Job.Judge;
    var w, t, backups := job.view.world, job.view.tree, BackupActions(job.Backups(job.next));
    var places := PlaceActions(Drifted(job.Places(job.next)));
    NothingPreRemoved(job);
    T2IsEnd(job);
    DriftedAreLinks(job);
    CopyStageDoesNotDrift(job, recopy, places);
    BackupsAreGentle(job);
    GentleDoNotDrift(w, t, backups);
    NoDriftJoin(w, t, backups, places + CopyStage(job, recopy));
  }

  lemma NothingToTakeBack(job: Job)
    requires job.Valid()
    ensures PutBack(job.view.tree, Unwound(job.view.tree, []), {})
  {
  }

  lemma RepairMakesParents(job: Job, recopy: bool, cut: seq<Event>)
    requires job.Valid() && CutOf(cut, RunAll(job.view.world, job.view.tree, RepairSchedule(job, recopy)).events)
    ensures forall m :: m in Made(cut) ==> exists e :: e in job.next && m < e.target
  {
    forall m | m in Made(cut) ensures exists e :: e in job.next && m < e.target {
      var a := CutFrom(job.view.world, job.view.tree, RepairSchedule(job, recopy), cut, MkParent(m));
      RepairIs(job, recopy, a);
    }
  }

  lemma FailedRepairIsTakenBack(job: Job, recopy: bool, cut: seq<Event>)
    requires OrderlyFor(job, recopy) && (cut != [] ==> job.PreRemoves(job.next) == [])
    requires CutOf(cut, RunAll(job.view.world, job.view.tree, RepairSchedule(job, recopy)).events)
    ensures PutBack(job.view.tree, Unwound(job.view.tree, cut), Made(cut))
    ensures TakenBack(job, Unwound(job.view.tree, cut))
  {
    if cut == [] {
      NothingToTakeBack(job);
      PutBackIsTakenBack(job, Unwound(job.view.tree, []), {});
      assert Made(cut) == {};
      return;
    }
    RepairSpaced(job, recopy);
    RepairDoesNotDrift(job, recopy);
    FailedRunIsUndone(job.view.world, job.view.tree, RepairSchedule(job, recopy), cut);
    RepairMakesParents(job, recopy, cut);
    hide Job.Judge, PutBack, TakenBack, Made, RepairSchedule, RunAll, CutOf;
    PutBackIsTakenBack(job, Unwound(job.view.tree, cut), Made(cut));
  }

  lemma RepairRenamesPlanned(job: Job, cut: seq<Event>)
    requires job.Valid() && CutOf(cut, RunAll(job.view.world, job.view.tree, RepairSchedule(job, false)).events)
    ensures RenamesPlanned(cut, job.Backups(job.next))
  {
    forall e | e in cut
      ensures !e.SetAside?
      ensures e.BackUp? ==> exists b :: b in job.Backups(job.next) && b.entry.target == e.path && b.aside == e.aside
    {
      var a := CutFrom(job.view.world, job.view.tree, RepairSchedule(job, false), cut, e);
      RepairIs(job, false, a);
      if a.DoBackup? {
        RepairBackupIs(job, a);
        assert BackupAction(a.entry, a.aside).entry.target == a.entry.target;
      }
    }
  }

  lemma RepairBackupIs(job: Job, a: Action)
    requires job.Valid() && a in RepairSchedule(job, false) && a.DoBackup?
    ensures BackupAction(a.entry, a.aside) in job.Backups(job.next)
  {
    hide Job.Judge, CopyStage;
    if a in BackupActions(job.Backups(job.next)) {
      BackupActionIs(job.Backups(job.next), a);
    } else if a in CopyStage(job, false) {
      CopyStageIs(job, false, a);
    } else {
      PlaceActionIs(Drifted(job.Places(job.next)), a);
    }
  }

  /** The drift repair, too, loses no regular file, wherever it stops. */
  lemma RepairLosesNoFile(job: Job, cut: seq<Event>, q: Path)
    requires Orderly(job) && job.PreRemoves(job.next) == []
    requires CutOf(cut, RunAll(job.view.world, job.view.tree, RepairSchedule(job, false)).events)
    requires q in job.view.tree && job.view.tree[q].File?
    ensures FileKept(job.view.tree, Exec(job.view.tree, cut), job.Backups(job.next), q)
  {
    var w, t, actions := job.view.world, job.view.tree, RepairSchedule(job, false);
    hide RunAll, CutOf, RepairSchedule, FileKept, Exec, Job.Judge, RenamesPlanned, AsidesApart, Lossless, Legal;
    RunAllLegal(w, t, actions);
    RepairDoesNotDrift(job, false);
    RunAllLossless(w, t, actions);
    CutLegal(t, cut, RunAll(w, t, actions).events);
    RepairRenamesPlanned(job, cut);
    BackupAsidesApart(job);
    FilesSurvive(t, cut, job.Backups(job.next), q);
  }

  // Apply.

  /** How an Apply or a Rollback can end. */
  datatype Ending =
    | Skipped        // another apply holds the lock
    | Stopped        // stopped before any write: no profile, no build, no readable plan
    | Conflicted     // stopped before any write: the plan has conflicts
    | RolledBack     // a stage failed; the writes were taken back
    | Uncommitted    // every stage went through, the pointer did not move
    | Committed
    | Kept           // project root, same generation: drift repaired, nothing committed

  class Profile {
    var current: Option<Manifest>

    /** What nix-env will say to a move of the pointer. */
    const movable: bool

    constructor (current: Option<Manifest>, movable: bool)
      ensures this.current == current && this.movable == movable
    {
      this.current := current;
      this.movable := movable;
    }

    /** `nix-env --set`, or `--switch-generation`. */
    method MoveTo(next: Manifest) returns (ok: bool)
      modifies this
      ensures ok == movable && current == if ok then Some(next) else old(current)
    {
      ok := movable;
      if ok { current := Some(next); }
    }
  }

  /** What the world outside answers an Apply: whether another run holds the lock; whether the profile
      directory, the build and its manifest could be had; whether the out-of-store sources exist; whether
      the link-farm is the one of the current generation. */
  datatype Answers = Answers(held: bool, built: bool, linksExist: bool, sameFarm: bool)

  function Recorded(current: Option<Manifest>): Manifest {
    match current
    case None => []
    case Some(m) => m
  }

  /** Everything of `u`, save what lies under a recopy aside of a copy target. */
  ghost predicate AsidesDropped(u: Tree, v: Tree, next: Manifest) {
    && (forall q :: q in v ==> q in u && v[q] == u[q])
    && (forall q :: q in u && q !in v ==>
          exists e :: e in next && e.how == Copy && WithSuffix(e.target, RECOPY_SUFFIX) <= q)
  }

  /** What convergence promises of the tree. */
  ghost predicate Converged(job: Job, u: Tree) {
    && ValidTree(u)
    && (forall e :: e in job.next ==> InPlace(job.view.world, u, e))
    && (forall pe :: pe in job.prev && pe.target !in job.NextBy() && pe.how != Copy && Live(job.view.tree, pe) ==>
          !Live(u, pe))
    && LeavesSettled(job, u) && DirsAccountedFor(job, u) && DirsKept(job, u)
  }

  /** The tree each ending leaves. */
  ghost predicate Leaves(job: Job, recopy: bool, limits: seq<nat>, ending: Ending, u: Tree) {
    match ending
    case Skipped => u == job.view.tree
    case Stopped => u == job.view.tree
    case Conflicted => u == job.view.tree && !job.Accepted()
    case RolledBack =>
      OrderlyFor(job, recopy) ==> TakenBack(job, u) && (DirectChildren(job) && job.Accepted() ==> Restored(job.view.tree, u))
    case Uncommitted => RanThrough(job, recopy, limits) && u == Ran(job, recopy, limits)
    case Committed =>
      RanThrough(job, recopy, limits) && AsidesDropped(Ran(job, recopy, limits), u, job.next)
      && (!recopy ==> u == Ran(job, recopy, limits))
    case Kept =>
      && job.PreRemoves(job.next) == []
      && RunAll(job.view.world, job.view.tree, RepairSchedule(job, recopy)).done
      && AsidesDropped(End(job.view.world, job.view.tree, RepairSchedule(job, recopy)), u, job.next)
      && (!recopy ==> u == End(job.view.world, job.view.tree, RepairSchedule(job, recopy)))
  }

  ghost predicate RanThrough(job: Job, recopy: bool, limits: seq<nat>) {
    |limits| == |job.Removes(job.prev)| && RunAll(job.view.world, job.view.tree, Schedule(job, recopy, limits)).done
  }

  function Ran(job: Job, recopy: bool, limits: seq<nat>): Tree
    requires |limits| == |job.Removes(job.prev)|
  {
    End(job.view.world, job.view.tree, Schedule(job, recopy, limits))
  }

  lemma {:induction false} JournaledAside(es: seq<Event>, op: UndoOp)
    requires op in Journal(es) && op.UndoRestoreRename?
    ensures SetAside(op.path, op.tmp) in es
  {
    var init, e := es[..|es| - 1], es[|es| - 1];
    if op in Journal(init) { JournaledAside(init, op); }
  }

  lemma RecopyAside(w: World, t: Tree, actions: seq<Action>, op: UndoOp, next: Manifest, recopy: bool)
    requires op in Journal(RunAll(w, t, actions).events) && op.UndoRestoreRename?
    requires forall a :: a in actions && a.DoRecopy? ==> recopy && a.entry in next && a.entry.how == Copy
    ensures recopy && exists e :: e in next && e.how == Copy && op.tmp == WithSuffix(e.target, RECOPY_SUFFIX)
  {
    var es := RunAll(w, t, actions).events;
    JournaledAside(es, op);
    var a := RunAllFrom(w, t, actions, SetAside(op.path, op.tmp));
  }

  lemma RecopiesAreCopies(job: Job, recopy: bool, a: Action)
    requires job.Valid() && a in CopyStage(job, recopy) && a.DoRecopy?
    ensures recopy && a.entry in job.next && a.entry.how == Copy
  {
    if recopy { RecopyIs(job.next, a); } else { CopyActionIs(job.Copies(job.next), a); }
  }

  lemma ScheduleRecopies(job: Job, recopy: bool, limits: seq<nat>)
    requires job.Valid() && |limits| == |job.Removes(job.prev)|
    ensures forall a :: a in Schedule(job, recopy, limits) && a.DoRecopy? ==> recopy && a.entry in job.next && a.entry.how == Copy
  {
    forall a | a in Schedule(job, recopy, limits) && a.DoRecopy? ensures recopy && a.entry in job.next && a.entry.how == Copy {
      hide Job.Judge, CopyStage;
      if a in CopyStage(job, recopy) {
        RecopiesAreCopies(job, recopy, a);
      } else if a in Front(job) {
        FrontIs(job, a);
      } else {
        DropsAre(job, limits, a);
      }
    }
  }

  lemma RepairRecopies(job: Job, recopy: bool)
    requires job.Valid()
    ensures forall a :: a in RepairSchedule(job, recopy) && a.DoRecopy? ==> recopy && a.entry in job.next && a.entry.how == Copy
  {
    forall a | a in RepairSchedule(job, recopy) && a.DoRecopy? ensures recopy && a.entry in job.next && a.entry.how == Copy {
      hide Job.Judge, CopyStage;
      if a in CopyStage(job, recopy) {
        RecopiesAreCopies(job, recopy, a);
      } else if a in BackupActions(job.Backups(job.next)) {
        BackupActionIs(job.Backups(job.next), a);
      } else {
        PlaceActionIs(Drifted(job.Places(job.next)), a);
      }
    }
  }

  /** After a success the journal goes, and with it the recopy asides. */
  method Discard(a: Applier, t: Tree, ghost actions: seq<Action>, next: Manifest, recopy: bool)
    requires Came(a, t, actions)
    requires forall x :: x in actions && x.DoRecopy? ==> recopy && x.entry in next && x.entry.how == Copy
    modifies a, a.disk
    ensures AsidesDropped(End(a.disk.world, t, actions), a.disk.tree, next)
    ensures !recopy ==> a.disk.tree == End(a.disk.world, t, actions)
    ensures a.disk.faults >= old(a.disk.faults)
    ensures a.disk.faults == old(a.disk.faults) ==> Cleared(a.disk.tree, a.disk.world, t, actions)
  {
    ghost var w := a.disk.world;
    AsidesOfCopies(a, t, actions, next, recopy);
    hide *;
    ghost var u, ops := a.disk.tree, a.journal;
    a.DiscardJournal();
    OnlyAsidesGo(u, a.disk.tree, ops, next, recopy);
    Discarded(a, w, t, actions);
  }

  lemma AsidesOfCopies(a: Applier, t: Tree, actions: seq<Action>, next: Manifest, recopy: bool)
    requires Came(a, t, actions)
    requires forall x :: x in actions && x.DoRecopy? ==> recopy && x.entry in next && x.entry.how == Copy
    ensures a.disk.tree == End(a.disk.world, t, actions) && a.journal == Journal(RunAll(a.disk.world, t, actions).events)
    ensures forall op :: op in a.journal && op.UndoRestoreRename? ==>
              recopy && exists e :: e in next && e.how == Copy && op.tmp == WithSuffix(e.target, RECOPY_SUFFIX)
  {
    hide RunAll, Exec, Journal;
    forall op | op in a.journal && op.UndoRestoreRename?
      ensures recopy && exists e :: e in next && e.how == Copy && op.tmp == WithSuffix(e.target, RECOPY_SUFFIX)
    {
      RecopyAside(a.disk.world, t, actions, op, next, recopy);
    }
  }

  lemma OnlyAsidesGo(u: Tree, v: Tree, ops: seq<UndoOp>, next: Manifest, recopy: bool)
    requires forall op :: op in ops && op.UndoRestoreRename? ==>
               recopy && exists e :: e in next && e.how == Copy && op.tmp == WithSuffix(e.target, RECOPY_SUFFIX)
    requires (forall op :: op in ops ==> !op.UndoRestoreRename?) ==> v == u
    requires forall q :: q in v ==> q in u && v[q] == u[q]
    requires forall q :: q in u && q !in v ==> exists op :: op in ops && op.UndoRestoreRename? && op.tmp <= q
    ensures AsidesDropped(u, v, next) && (!recopy ==> v == u)
  {
  }

  lemma Discarded(a: Applier, w: World, t: Tree, actions: seq<Action>)
    ensures Applier.AsidesGone(a.disk.tree, Journal(RunAll(w, t, actions).events)) ==> Cleared(a.disk.tree, w, t, actions)
  {
    hide RunAll, Journal, Cleared;
    if Applier.AsidesGone(a.disk.tree, Journal(RunAll(w, t, actions).events)) { ClearedIs(a.disk.tree, w, t, actions); }
  }

  /** Of what a run renamed aside for a fresh copy, nothing is left. */
  ghost predicate Cleared(u: Tree, w: World, t: Tree, actions: seq<Action>) {
    forall e, q :: e in RunAll(w, t, actions).events && e.SetAside? && e.aside <= q ==> q !in u
  }

  lemma {:induction false} AsideIsJournaled(es: seq<Event>, e: Event)
    requires e in es && e.SetAside?
    ensures UndoRestoreRename(e.path, e.aside) in Journal(es)
  {
    if e != es[|es| - 1] { AsideIsJournaled(es[..|es| - 1], e); }
  }

  lemma ClearedIs(u: Tree, w: World, t: Tree, actions: seq<Action>)
    requires Applier.AsidesGone(u, Journal(RunAll(w, t, actions).events))
    ensures Cleared(u, w, t, actions)
  {
    hide RunAll, Journal;
    var es := RunAll(w, t, actions).events;
    forall e, q | e in es && e.SetAside? && e.aside <= q ensures q !in u { AsideIsJournaled(es, e); }
  }

  lemma RolledBackLeaves(job: Job, recopy: bool, limits: seq<nat>, cut: seq<Event>)
    requires |limits| == |job.Removes(job.prev)| && Stops(job, recopy, limits, cut)
    ensures Leaves(job, recopy, limits, RolledBack, Unwound(job.view.tree, cut))
  {
    if OrderlyFor(job, recopy) {
      FailedIsTakenBack(job, recopy, limits, cut);
      if DirectChildren(job) && job.Accepted() { DirectChildrenSuffice(job, recopy, limits, cut); }
    }
  }

  lemma RepairRolledBack(job: Job, recopy: bool, limits: seq<nat>, cut: seq<Event>)
    requires cut != [] ==> job.PreRemoves(job.next) == []
    requires CutOf(cut, RunAll(job.view.world, job.view.tree, RepairSchedule(job, recopy)).events)
    ensures Leaves(job, recopy, limits, RolledBack, Unwound(job.view.tree, cut))
  {
    if OrderlyFor(job, recopy) {
      FailedRepairIsTakenBack(job, recopy, cut);
      if DirectChildren(job) && job.Accepted() {
        RepairMakesParents(job, recopy, cut);
        var t := job.view.tree;
        forall x | x in t && t[x].Link? ensures !Pinned(x, Made(cut)) { NoLinkIsPinned(job, Made(cut), x); }
      }
    }
  }

  lemma CameThrough(a: Applier, job: Job, recopy: bool, limits: seq<nat>)
    requires |limits| == |job.Removes(job.prev)| && Came(a, job.view.tree, Schedule(job, recopy, limits))
    requires a.disk.world == job.view.world
    ensures RanThrough(job, recopy, limits) && a.disk.tree == Ran(job, recopy, limits)
  {
    hide Schedule;
  }

  lemma KeptThrough(a: Applier, job: Job, recopy: bool)
    requires Came(a, job.view.tree, RepairSchedule(job, recopy)) && a.disk.world == job.view.world
    ensures RunAll(job.view.world, job.view.tree, RepairSchedule(job, recopy)).done
    ensures a.disk.tree == End(job.view.world, job.view.tree, RepairSchedule(job, recopy))
  {
    hide RepairSchedule;
  }

  /** What holds of every ending: only a commit moves the pointer, and the tree is as the ending says. */
  ghost predicate EndsWell(job: Job, recopy: bool, limits: seq<nat>, ending: Ending, u: Tree,
                           before: Option<Manifest>, after: Option<Manifest>) {
    && after == (if ending == Committed then Some(job.next) else before)
    && Leaves(job, recopy, limits, ending, u)
  }

  lemma NothingLeft(job: Job, recopy: bool, limits: seq<nat>, before: Option<Manifest>)
    ensures EndsWell(job, recopy, limits, Skipped, job.view.tree, before, before)
    ensures EndsWell(job, recopy, limits, Stopped, job.view.tree, before, before)
    ensures job.Conflicts(job.next) != [] ==> EndsWell(job, recopy, limits, Conflicted, job.view.tree, before, before)
  {
  }

  /** The plan for the two manifests and the tree as it stands. */
  method PlanFor(job: Job) returns (computed: Computed)
    requires job.Valid()
    ensures computed == job.Compute()
  {
    var builder := new PlanBuilder(job);
    computed := builder.Compute();
  }

  lemma EndedTree(a: Applier, t: Tree, plan: Plan, next: Manifest, recopy: bool)
    requires Ended(a, t, plan, next, recopy)
    ensures a.disk.tree == Unwound(t, a.events)
  {
  }

  lemma ThroughLeaves(job: Job, recopy: bool, limits: seq<nat>, u: Tree)
    requires RanThrough(job, recopy, limits)
    ensures Leaves(job, recopy, limits, Uncommitted, Ran(job, recopy, limits))
    ensures AsidesDropped(Ran(job, recopy, limits), u, job.next) && (!recopy ==> u == Ran(job, recopy, limits)) ==>
              Leaves(job, recopy, limits, Committed, u)
  {
  }

  lemma EndsAs(job: Job, recopy: bool, limits: seq<nat>, ending: Ending, u: Tree,
               before: Option<Manifest>, after: Option<Manifest>)
    requires Leaves(job, recopy, limits, ending, u)
    requires after == if ending == Committed then Some(job.next) else before
    ensures EndsWell(job, recopy, limits, ending, u, before, after)
  {
  }

  /** A run in which the system refused no call: it is rolled back only if it could not be carried out, no
      prune was cut short, and after a commit no recopy aside is left. */
  ghost predicate Unhindered(job: Job, recopy: bool, limits: seq<nat>, ending: Ending, u: Tree)
    requires |limits| == |job.Removes(job.prev)|
  {
    && Unlimited(job.Removes(job.prev), limits)
    && (ending == RolledBack ==> !RunAll(job.view.world, job.view.tree, Schedule(job, recopy, limits)).done)
    && (ending == Committed ==> Cleared(u, job.view.world, job.view.tree, Schedule(job, recopy, limits)))
  }

  lemma UnhinderedIs(job: Job, recopy: bool, limits: seq<nat>, u: Tree)
    requires |limits| == |job.Removes(job.prev)|
    ensures Unlimited(job.Removes(job.prev), limits) ==>
              && Unhindered(job, recopy, limits, Uncommitted, u)
              && (Cleared(u, job.view.world, job.view.tree, Schedule(job, recopy, limits)) ==>
                    Unhindered(job, recopy, limits, Committed, u))
  {
    hide Cleared, Schedule, RunAll;
  }

  lemma Stuck(a: Applier, job: Job, recopy: bool, limits: seq<nat>)
    requires |limits| == |job.Removes(job.prev)| && Unlimited(job.Removes(job.prev), limits)
    requires a.disk.world == job.view.world && a.Within(a.disk.faults, job.view.tree, Schedule(job, recopy, limits), false)
    ensures Unhindered(job, recopy, limits, RolledBack, a.disk.tree)
  {
    hide Cleared, Schedule, RunAll;
  }

  /** Stages, commit, and the end of the journal: the part Apply and Rollback share. */
  method Transact(a: Applier, profile: Profile, job: Job, plan: Plan, recopy: bool)
    returns (ending: Ending, ghost limits: seq<nat>)
    requires a.Running() && a.events == [] && a.origin == job.view.tree && a.disk.world == job.view.world
    requires job.Valid() && plan == job.ThePlan()
    modifies a, a.disk, profile
    ensures EndsWell(job, recopy, limits, ending, a.disk.tree, old(profile.current), profile.current)
    ensures ending in {RolledBack, Uncommitted, Committed}
    ensures ending == RolledBack ==> Ended(a, job.view.tree, plan, job.next, recopy)
    ensures |limits| == |job.Removes(job.prev)|
    ensures ending == Uncommitted ==> Came(a, job.view.tree, Schedule(job, recopy, limits))
    ensures ending == RolledBack ==>
              FailedAt(job.view.world, job.view.tree, Schedule(job, recopy, limits), a.events, a.failed)
    ensures ending == Committed ==> profile.movable
    ensures ending == Uncommitted ==> !profile.movable
    ensures a.disk.faults >= old(a.disk.faults)
    ensures a.disk.faults == old(a.disk.faults) ==> Unhindered(job, recopy, limits, ending, a.disk.tree)
  {
    hide *;
    ghost var faults := a.disk.faults;
    var ok;
    ok, limits := Execute(a, job, plan, recopy);
    a.WithinGrows(faults, job.view.tree, Schedule(job, recopy, limits), ok);
    if !ok {
      EndedTree(a, job.view.tree, plan, job.next, recopy);
      RolledBackLeaves(job, recopy, limits, a.events);
      EndsAs(job, recopy, limits, RolledBack, a.disk.tree, profile.current, profile.current);
      if a.disk.faults == faults { Stuck(a, job, recopy, limits); }
      return RolledBack, limits;
    }
    UnhinderedIs(job, recopy, limits, a.disk.tree);
    CameThrough(a, job, recopy, limits);
    ScheduleRecopies(job, recopy, limits);
    var moved := profile.MoveTo(job.next);
    if !moved {
      ThroughLeaves(job, recopy, limits, a.disk.tree);
      EndsAs(job, recopy, limits, Uncommitted, a.disk.tree, old(profile.current), profile.current);
      return Uncommitted, limits;
    }
    RanIsEnd(job, recopy, limits);
    Discard(a, job.view.tree, Schedule(job, recopy, limits), job.next, recopy);
    UnhinderedIs(job, recopy, limits, a.disk.tree);
    ThroughLeaves(job, recopy, limits, a.disk.tree);
    EndsAs(job, recopy, limits, Committed, a.disk.tree, old(profile.current), profile.current);
    return Committed, limits;
  }

  lemma RanIsEnd(job: Job, recopy: bool, limits: seq<nat>)
    requires |limits| == |job.Removes(job.prev)|
    ensures Ran(job, recopy, limits) == End(job.view.world, job.view.tree, Schedule(job, recopy, limits))
  {
  }

  lemma KeptLeaves(job: Job, recopy: bool, limits: seq<nat>, u: Tree)
    requires job.PreRemoves(job.next) == [] && RunAll(job.view.world, job.view.tree, RepairSchedule(job, recopy)).done
    requires AsidesDropped(End(job.view.world, job.view.tree, RepairSchedule(job, recopy)), u, job.next)
    requires !recopy ==> u == End(job.view.world, job.view.tree, RepairSchedule(job, recopy))
    ensures Leaves(job, recopy, limits, Kept, u)
  {
  }

  /** The same for the drift repair. */
  ghost predicate KeptUnhindered(job: Job, recopy: bool, ending: Ending, u: Tree) {
    && (ending == RolledBack ==>
          job.PreRemoves(job.next) != [] || !RunAll(job.view.world, job.view.tree, RepairSchedule(job, recopy)).done)
    && (ending == Kept ==> Cleared(u, job.view.world, job.view.tree, RepairSchedule(job, recopy)))
  }

  lemma KeptUnhinderedIs(job: Job, recopy: bool, u: Tree)
    ensures job.PreRemoves(job.next) != [] ==> forall v :: KeptUnhindered(job, recopy, RolledBack, v)
    ensures Cleared(u, job.view.world, job.view.tree, RepairSchedule(job, recopy)) ==> KeptUnhindered(job, recopy, Kept, u)
  {
    hide Cleared, RunAll, RepairSchedule, Job.PreRemoves;
  }

  lemma RepairStuck(a: Applier, job: Job, recopy: bool)
    requires a.disk.world == job.view.world && a.Within(a.disk.faults, job.view.tree, RepairSchedule(job, recopy), false)
    ensures KeptUnhindered(job, recopy, RolledBack, a.disk.tree)
  {
    hide Cleared, RunAll, RepairSchedule, Job.PreRemoves;
  }

  /** The drift repair, with nothing to commit afterwards. */
  method Keep(a: Applier, job: Job, plan: Plan, recopy: bool) returns (ending: Ending)
    requires a.Running() && a.events == [] && a.origin == job.view.tree && a.disk.world == job.view.world
    requires job.Valid() && plan == job.ThePlan()
    modifies a, a.disk
    ensures Leaves(job, recopy, [], ending, a.disk.tree) && ending in {RolledBack, Kept}
    ensures ending == RolledBack ==> Ended(a, job.view.tree, plan, job.next, recopy)
    ensures ending == RolledBack ==> RepairFailed(job, recopy, a.events, a.failed)
    ensures a.disk.faults >= old(a.disk.faults)
    ensures a.disk.faults == old(a.disk.faults) ==> KeptUnhindered(job, recopy, ending, a.disk.tree)
  {
    hide *;
    PlanIs(job, plan);
    ghost var faults := a.disk.faults;
    KeptUnhinderedIs(job, recopy, job.view.tree);
    var ok := RepairDrift(a, job, plan, recopy);
    if !ok {
      EndedTree(a, job.view.tree, plan, job.next, recopy);
      RepairRolledBack(job, recopy, [], a.events);
      if a.disk.faults == faults && plan.preRemove == [] { RepairStuck(a, job, recopy); }
      return RolledBack;
    }
    KeptThrough(a, job, recopy);
    RepairRecopies(job, recopy);
    Discard(a, job.view.tree, RepairSchedule(job, recopy), job.next, recopy);
    KeptUnhinderedIs(job, recopy, a.disk.tree);
    KeptLeaves(job, recopy, [], a.disk.tree);
    return Kept;
  }

  /** The run is not under way and has written nothing. */
  ghost predicate Untouched(a: Applier, job: Job)
    reads a, a.disk
  {
    a.events == [] && a.disk.tree == job.view.tree && !a.unwound
  }

  lemma StillUntouched(a: Applier, job: Job)
    requires a.events == [] && a.disk.tree == job.view.tree && !a.unwound
    ensures Untouched(a, job)
  {
  }

  /** Nothing keeps the run from its first write. */
  ghost predicate Goes(job: Job, noWait: bool, said: Answers) {
    !(noWait && said.held) && said.built && job.Accepted() && said.linksExist
  }

  /** Apply, from the lock to the commit. */
  method Apply(disk: Disk, profile: Profile, next: Manifest, opts: Options, recopy: bool,
               noWait: bool, project: bool, said: Answers)
    returns (ending: Ending, a: Applier, ghost job: Job, ghost limits: seq<nat>)
    requires ValidTree(disk.tree) && ValidWorld(disk.world)
    requires said.sameFarm ==> profile.current == Some(next)
    modifies disk, profile
    ensures job.next == next && job.view == View(old(disk.tree), disk.world) && job.opts == opts && a.disk == disk
    ensures job.prev == if old(profile.current).Some? then old(profile.current).value else []
    // Which ending it is.
    ensures ending == Skipped <==> noWait && said.held
    ensures ending == Stopped <==>
              !(noWait && said.held) && (!said.built || !job.Readable() || (job.Conflicts(next) == [] && !said.linksExist))
    ensures ending == Conflicted <==> !(noWait && said.held) && said.built && job.Readable() && job.Conflicts(next) != []
    ensures ending in {RolledBack, Uncommitted, Committed, Kept} <==> Goes(job, noWait, said)
    ensures Goes(job, noWait, said) && project && said.sameFarm ==> ending in {RolledBack, Kept}
    ensures Goes(job, noWait, said) && !(project && said.sameFarm) ==>
              ending in {RolledBack, if profile.movable then Committed else Uncommitted}
    ensures Goes(job, noWait, said) && disk.faults == old(disk.faults) ==>
              if project && said.sameFarm then KeptUnhindered(job, recopy, ending, disk.tree)
              else |limits| == |job.Removes(job.prev)| && Unhindered(job, recopy, limits, ending, disk.tree)
    // What it leaves.
    ensures EndsWell(job, recopy, limits, ending, disk.tree, old(profile.current), profile.current)
    ensures ending == RolledBack ==> Ended(a, job.view.tree, job.ThePlan(), next, recopy)
    ensures ending == RolledBack ==>
              if project && said.sameFarm then RepairFailed(job, recopy, a.events, a.failed)
              else |limits| == |job.Removes(job.prev)|
                   && FailedAt(job.view.world, job.view.tree, Schedule(job, recopy, limits), a.events, a.failed)
    ensures ending == Conflicted ==>
              a.unreached == Unreached(PlannedTargets(job.ThePlan(), next, recopy), {}) && Untouched(a, job)
    ensures ending == Uncommitted ==> a.failed == None && a.unreached == []
  {
    hide *;
    var order := Job(Recorded(profile.current), next, View(disk.tree, disk.world), opts);
    job, limits := order, [];
    RecordedIs(profile.current);
    GoesIs(job, noWait, said);
    a := new Applier(disk);
    Starts(a, order);
    NothingLeft(job, recopy, limits, profile.current);
    if noWait && said.held { return Skipped, a, job, limits; }
    if !said.built { return Stopped, a, job, limits; }
    var computed := PlanFor(order);
    PlannedIs(order, computed);
    if computed.ProbeFailed? { return Stopped, a, job, limits; }
    var plan := computed.plan;
    if plan.conflicts != [] {
      a.Fail(plan, next, recopy);
      StillUntouched(a, order);
      return Conflicted, a, job, limits;
    }
    if !said.linksExist { return Stopped, a, job, limits; }
    if project && said.sameFarm {
      ending := Keep(a, order, plan, recopy);
      EndsAs(job, recopy, limits, ending, disk.tree, profile.current, profile.current);
      return;
    }
    ending, limits := Transact(a, profile, order, plan, recopy);
    if ending == Uncommitted { NothingFailed(a, job.view.tree, Schedule(job, recopy, limits)); }
  }

  lemma RecordedIs(current: Option<Manifest>)
    ensures Recorded(current) == if current.Some? then current.value else []
  {
  }

  lemma GoesIs(job: Job, noWait: bool, said: Answers)
    ensures Goes(job, noWait, said) <==>
              !(noWait && said.held) && said.built && job.Readable() && job.Conflicts(job.next) == [] && said.linksExist
  {
    hide Job.Readable, Job.Conflicts;
  }

  lemma NothingFailed(a: Applier, t: Tree, so: seq<Action>)
    requires Came(a, t, so)
    ensures a.failed == None && a.unreached == []
  {
  }

  lemma Starts(a: Applier, job: Job)
    requires ValidTree(job.view.tree) && ValidWorld(job.view.world)
    requires a.Valid() && a.origin == job.view.tree == a.disk.tree && a.events == [] && a.failed == None && a.unreached == [] && !a.unwound
    ensures job.Valid() && a.Running()
    ensures Attempted(a.events, a.Failing()) && a.report == Reported(a.events) && a.report.Done() + a.Failing() == {}
  {
  }

  lemma PlannedIs(job: Job, computed: Computed)
    requires computed == job.Compute()
    ensures computed.Planned? <==> job.Readable()
    ensures computed.Planned? ==> computed.plan == job.ThePlan() && computed.plan.conflicts == job.Conflicts(job.next)
    ensures computed.Planned? && computed.plan.conflicts == [] ==> job.Accepted()
  {
  }

  /** Rollback: the engine with the manifests of two generations, no --backup and no --recopy. `listed`: the
      generations could be listed and read, and there is an earlier one. */
  method Rollback(disk: Disk, profile: Profile, target: Manifest, listed: bool)
    returns (ending: Ending, a: Applier, ghost job: Job, ghost limits: seq<nat>)
    requires ValidTree(disk.tree) && ValidWorld(disk.world)
    modifies disk, profile
    ensures job.next == target && job.view == View(old(disk.tree), disk.world) && !job.opts.backup && a.disk == disk
    ensures job.prev == if old(profile.current).Some? then old(profile.current).value else []
    // Which ending it is.
    ensures ending == Stopped <==> old(profile.current) == None || !listed || !job.Readable()
    ensures ending == Conflicted <==> old(profile.current) != None && listed && job.Readable() && job.Conflicts(target) != []
    ensures ending in {RolledBack, Uncommitted, Committed} <==> old(profile.current) != None && listed && job.Accepted()
    ensures ending == Committed ==> profile.movable
    ensures ending == Uncommitted ==> !profile.movable
    ensures ending in {RolledBack, Uncommitted, Committed} && disk.faults == old(disk.faults) ==>
              |limits| == |job.Removes(job.prev)| && Unhindered(job, false, limits, ending, disk.tree)
    // What it leaves.
    ensures EndsWell(job, false, limits, ending, disk.tree, old(profile.current), profile.current)
    ensures ending == RolledBack ==> Ended(a, job.view.tree, job.ThePlan(), target, false)
    ensures ending == RolledBack ==>
              |limits| == |job.Removes(job.prev)|
              && FailedAt(job.view.world, job.view.tree, Schedule(job, false, limits), a.events, a.failed)
    ensures ending == Conflicted ==>
              a.unreached == Unreached(PlannedTargets(job.ThePlan(), target, false), {}) && Untouched(a, job)
    ensures ending == Uncommitted ==>
              a.failed == None && a.unreached == Unreached(PlannedTargets(job.ThePlan(), target, false), a.report.Done())
    ensures ending == Uncommitted && Steady(job) ==> a.unreached == []
  {
    hide *;
    var order := Job(Recorded(profile.current), target, View(disk.tree, disk.world), Options(false, ""));
    job, limits := order, [];
    RecordedIs(profile.current);
    AcceptedIs(job);
    a := new Applier(disk);
    Starts(a, order);
    NothingLeft(job, false, limits, profile.current);
    if profile.current == None { return Stopped, a, job, limits; }
    if !listed { return Stopped, a, job, limits; }
    var computed := PlanFor(order);
    PlannedIs(order, computed);
    if computed.ProbeFailed? { return Stopped, a, job, limits; }
    var plan := computed.plan;
    if plan.conflicts != [] {
      a.Fail(plan, target, false);
      StillUntouched(a, order);
      return Conflicted, a, job, limits;
    }
    ending, limits := Transact(a, profile, order, plan, false);
    if ending == Uncommitted {
      CameFails(a, order, limits);
      NothingIsSwallowed(job);
      a.Fail(plan, target, false);
    }
  }

  lemma AcceptedIs(job: Job)
    ensures job.Accepted() <==> job.Readable() && job.Conflicts(job.next) == []
  {
    hide Job.Readable, Job.Conflicts;
  }

  /** Without --backup nothing goes aside. */
  lemma NothingIsSwallowed(job: Job)
    requires job.Valid() && !job.opts.backup
    ensures Straight(job)
  {
    hide Job.Judge;
    forall pe ensures !Swallowed(job, pe) {
      if e :| Crosses(job, e, pe) { JudgeMeans(job, e); }
    }
  }

  /** What a run that went through leaves for `fail` to list. */
  lemma CameFails(a: Applier, job: Job, limits: seq<nat>)
    requires |limits| == |job.Removes(job.prev)| && Came(a, job.view.tree, Schedule(job, false, limits))
    requires a.disk.world == job.view.world
    ensures a.failed == None && a.unreached == [] && a.Failing() == {} && a.report == Reported(a.events)
    ensures a.report.Done() + a.Failing() == a.report.Done()
    ensures Attempted(a.events, a.Failing())
    ensures Steady(job) && Straight(job) ==> Unreached(PlannedTargets(job.ThePlan(), job.next, false), a.report.Done() + a.Failing()) == []
  {
    hide Job.Judge, Schedule, RunAll, Reported, Unreached, PlannedTargets, Report.Done, Job.ThePlan, Straight, Steady;
    if Steady(job) && Straight(job) {
      UnreachedExactly(job, limits);
      assert a.report.Done() + {} == a.report.Done();
    }
  }

  /** With no call refused, a run that can be carried out is committed or, if the pointer does not move, left
      uncommitted; either way every entry is in place but the copies that hold nothing but stale links. */
  lemma CleanRunConverges(job: Job, limits: seq<nat>, ending: Ending, u: Tree)
    requires Steady(job) && |limits| == |job.Removes(job.prev)|
    requires Unhindered(job, false, limits, ending, u) && Leaves(job, false, limits, ending, u)
    requires ending in {RolledBack, Uncommitted, Committed}
    ensures ending != RolledBack
    ensures forall e :: e in job.next ==> (InPlace(job.view.world, u, e) <==> !Undercut.Lost(job, e))
  {
    hide Cleared, Schedule, RunAll, InPlace, Undercut.Lost, Steady, Job.Judge;
    StagesChain(job, limits);
    Undercut.ConvergesExactly(job, limits);
  }

  /** With no call refused, a drift repair that has nothing to pre-remove keeps the generation and puts every
      entry in place. */
  lemma CleanRepairConverges(job: Job, ending: Ending, u: Tree)
    requires Repairable(job)
    requires KeptUnhindered(job, false, ending, u) && Leaves(job, false, [], ending, u) && ending in {RolledBack, Kept}
    ensures ending == Kept <==> job.PreRemoves(job.next) == []
    ensures ending == Kept ==> forall e :: e in job.next ==> InPlace(job.view.world, u, e)
  {
    hide Cleared, RepairSchedule, RunAll, InPlace, Job.Judge, Repairable;
    RepairConverges(job);
  }

  /** A run that went through on a good job converges, committed or not. */
  lemma ThroughConverges(job: Job, limits: seq<nat>, ending: Ending, u: Tree)
    requires Good(job) && Leaves(job, false, limits, ending, u) && ending in {Committed, Uncommitted}
    ensures Converged(job, u)
  {
    hide Job.Judge;
    Converges(job, limits);
  }

  lemma KeptConverges(job: Job, limits: seq<nat>, u: Tree)
    requires Unchanged(job) && Orderly(job) && job.Accepted() && SourcesExist(job) && Leaves(job, false, limits, Kept, u)
    ensures forall e :: e in job.next ==> InPlace(job.view.world, u, e)
  {
    KeptIs(job, limits, u);
    hide Job.Judge, RepairSchedule, RunAll, InPlace, Leaves;
    RepairConverges(job);
  }

  lemma KeptIs(job: Job, limits: seq<nat>, u: Tree)
    requires Leaves(job, false, limits, Kept, u)
    ensures job.PreRemoves(job.next) == [] && u == End(job.view.world, job.view.tree, RepairSchedule(job, false))
  {
    hide Job.Judge, RepairSchedule, RunAll;
  }

  lemma RanIsCut(job: Job, limits: seq<nat>)
    requires |limits| == |job.Removes(job.prev)|
    ensures Stops(job, false, limits, RunAll(job.view.world, job.view.tree, Schedule(job, false, limits)).events)
    ensures Ran(job, false, limits)
            == Exec(job.view.tree, RunAll(job.view.world, job.view.tree, Schedule(job, false, limits)).events)
  {
  }

  lemma TakenBackKeeps(job: Job, u: Tree, q: Path)
    requires TakenBack(job, u) && q in job.view.tree && job.view.tree[q].File?
    ensures FileKept(job.view.tree, u, job.Backups(job.next), q)
  {
  }

  lemma InPlaceIsKept(t: Tree, bs: seq<BackupAction>, q: Path)
    requires q in t
    ensures FileKept(t, t, bs, q)
  {
  }

  lemma WholeIsCut(es: seq<Event>)
    ensures CutOf(es, es)
  {
  }

  /** However Apply or Rollback ends, without --recopy every regular file under the root is there with its
      content, at its own path or under the one backup rename of the target above it. */
  lemma EndingsKeepFiles(job: Job, limits: seq<nat>, ending: Ending, u: Tree, q: Path)
    requires Orderly(job) && Leaves(job, false, limits, ending, u) && q in job.view.tree && job.view.tree[q].File?
    ensures FileKept(job.view.tree, u, job.Backups(job.next), q)
  {
    hide FileKept, RunAll, Exec, Schedule, RepairSchedule, CutOf, Stops, Job.Judge, TakenBack, Orderly, AsidesDropped;
    match ending
    case RolledBack => TakenBackKeeps(job, u, q);
    case Kept =>
      WholeIsCut(RunAll(job.view.world, job.view.tree, RepairSchedule(job, false)).events);
      RepairLosesNoFile(job, RunAll(job.view.world, job.view.tree, RepairSchedule(job, false)).events, q);
    case Uncommitted =>
      RanIsCut(job, limits);
      NoFileIsLost(job, limits, RunAll(job.view.world, job.view.tree, Schedule(job, false, limits)).events, q);
    case Committed =>
      RanIsCut(job, limits);
      NoFileIsLost(job, limits, RunAll(job.view.world, job.view.tree, Schedule(job, false, limits)).events, q);
    case _ => InPlaceIsKept(job.view.tree, job.Backups(job.next), q);
  }

  lemma GoodStands(job: Job)
    requires Good(job)
    ensures OrderlyFor(job, false) && job.Accepted()
  {
  }

  /** The end states of Apply and Rollback. On a good job the pointer and the tree end as one of: moved,
      converged; unmoved, taken back -- every node as it was, where nested entries are direct children;
      unmoved, converged, only when the commit itself failed; unmoved, every entry in place, only when
      the generation was kept; unmoved, untouched, when the run was over before its first write. */
  lemma EndStates(job: Job, limits: seq<nat>, ending: Ending, u: Tree, before: Option<Manifest>, after: Option<Manifest>)
    requires Good(job) && EndsWell(job, false, limits, ending, u, before, after)
    requires ending == Kept ==> Unchanged(job)
    ensures match ending
            case Committed => after == Some(job.next) && Converged(job, u)
            case Uncommitted => after == before && Converged(job, u)
            case Kept => after == before && forall e :: e in job.next ==> InPlace(job.view.world, u, e)
            case RolledBack =>
              after == before && TakenBack(job, u) && (DirectChildren(job) ==> Restored(job.view.tree, u))
            case _ => after == before && u == job.view.tree
  {
    GoodStands(job);
    hide Converged, Job.Judge, InPlace, Good, TakenBack, Restored, DirectChildren, OrderlyFor;
    match ending
    case Committed => ThroughConverges(job, limits, ending, u);
    case Uncommitted => ThroughConverges(job, limits, ending, u);
    case Kept => KeptConverges(job, limits, u);
    case _ =>
  }

  // The dry run.

  method PreviewPlaces(ps: seq<PlaceAction>, base: Report) returns (r: Report)
    ensures r == base.Plus(Placings(ps))
  {
    r := base;
    PlusAssociates(base, NOTHING, NOTHING);
    for i := 0 to |ps|
      invariant r == base.Plus(Placings(ps[..i]))
    {
      Prefix(ps, i + 1);
      PlusAssociates(base, Placings(ps[..i]), Placing(ps[i]));
      var p := ps[i];
      if p.kind == PlaceNew {
        r := r.(placed := r.placed + [p.entry.target]);
      } else {
        r := r.(replaced := r.replaced + [p.entry.target]);
      }
    }
    Whole(ps);
  }

  method PreviewCopies(cs: seq<CopyAction>, base: Report) returns (r: Report)
    ensures r == base.Plus(Copyings(cs))
  {
    r := base;
    PlusAssociates(base, NOTHING, NOTHING);
    for i := 0 to |cs|
      invariant r == base.Plus(Copyings(cs[..i]))
    {
      Prefix(cs, i + 1);
      PlusAssociates(base, Copyings(cs[..i]), NOTHING.(copied := [cs[i].entry.target]));
      r := r.(copied := r.copied + [cs[i].entry.target]);
    }
    Whole(cs);
  }

  method PreviewRemovals(rs: seq<RemoveAction>, base: Report) returns (r: Report)
    ensures r == base.Plus(Removings(rs))
  {
    r := base;
    PlusAssociates(base, NOTHING, NOTHING);
    for i := 0 to |rs|
      invariant r == base.Plus(Removings(rs[..i]))
    {
      Prefix(rs, i + 1);
      PlusAssociates(base, Removings(rs[..i]), Removing(rs[i]));
      match rs[i]
      case Rmdir(dir) => r := r.(pruned := r.pruned + [dir]);
      case Unlink(e) => r := r.(removed := r.removed + [e.target]);
    }
    Whole(rs);
  }

  method PreviewBackups(bs: seq<BackupAction>, base: Report) returns (r: Report)
    ensures r == base.Plus(Asidings(bs))
  {
    r := base;
    PlusAssociates(base, NOTHING, NOTHING);
    for i := 0 to |bs|
      invariant r == base.Plus(Asidings(bs[..i]))
    {
      Prefix(bs, i + 1);
      PlusAssociates(base, Asidings(bs[..i]), NOTHING.(backedUp := [bs[i].entry.target]));
      r := r.(backedUp := r.backedUp + [bs[i].entry.target]);
    }
    Whole(bs);
  }

  /** apply --dryrun: the plan as a report, and nothing written. */
  method DryRun(disk: Disk, profile: Profile, next: Manifest, opts: Options) returns (preview: Option<Report>, conflicts: seq<Conflict>)
    requires ValidTree(disk.tree) && ValidWorld(disk.world)
    ensures var job := Job(if profile.current.Some? then profile.current.value else [], next, View(disk.tree, disk.world), opts);
            if job.Readable() then preview == Some(Preview(job.ThePlan())) && conflicts == job.Conflicts(next)
            else preview == None
  {
    var job := Job(Recorded(profile.current), next, View(disk.tree, disk.world), opts);
    hide Report.Plus, Job.Judge, Job.Leave, Placings, Copyings, Removings, Asidings;
    var computed := PlanFor(job);
    match computed
    case ProbeFailed => return None, [];
    case Planned(plan) =>
      NothingPlus(Placings(plan.place));
      var r := PreviewPlaces(plan.place, NOTHING);
      r := PreviewCopies(plan.copies, r);
      r := PreviewRemovals(plan.preRemove, r);
      r := PreviewRemovals(plan.remove, r);
      r := PreviewBackups(plan.backup, r);
      return Some(r), plan.conflicts;
  }

  lemma NothingPlus(r: Report)
    ensures NOTHING.Plus(r) == r
  {
    PlusAssociates(r, NOTHING, NOTHING);
  }
}
