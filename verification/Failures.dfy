/** What a failed run lists as unreached. */
module Failures {
  import opened Sequences
  import opened Paths
  import opened Manifests
  import opened Planner
  import opened Steps
  import opened Runs
  import opened PlanFacts
  import opened Converge
  import opened Settle
  import opened Atomic
  import opened Reports

  function RemoveTargets(rs: seq<RemoveAction>): seq<Path> {
    if rs == [] then []
    else
      RemoveTargets(rs[..|rs| - 1]) + (if rs[|rs| - 1].Unlink? then [rs[|rs| - 1].entry.target] else [])
  }

  function BackupTargets(bs: seq<BackupAction>): seq<Path> {
    if bs == [] then [] else BackupTargets(bs[..|bs| - 1]) + [bs[|bs| - 1].entry.target]
  }

  function PlaceTargets(ps: seq<PlaceAction>): seq<Path> {
    if ps == [] then [] else PlaceTargets(ps[..|ps| - 1]) + [ps[|ps| - 1].entry.target]
  }

  function CopyTargets(cs: seq<CopyAction>): seq<Path> {
    if cs == [] then [] else CopyTargets(cs[..|cs| - 1]) + [cs[|cs| - 1].entry.target]
  }

  function RecopyTargets(m: Manifest): seq<Path> {
    if m == [] then []
    else RecopyTargets(m[..|m| - 1]) + (if m[|m| - 1].how == Copy then [m[|m| - 1].target] else [])
  }

  /** Every planned target, in plan order. A pre-removed directory has no target. */
  function PlannedTargets(plan: Plan, next: Manifest, recopy: bool): seq<Path> {
    RemoveTargets(plan.preRemove) + BackupTargets(plan.backup) + PlaceTargets(plan.place) + CopyTargets(plan.copies)
    + (if recopy then RecopyTargets(next) else []) + RemoveTargets(plan.remove)
  }

  lemma {:induction false} RecopyTargetIs(m: Manifest, x: Path)
    ensures x in RecopyTargets(m) <==> exists e :: e in m && e.how == Copy && e.target == x
  {
    if m != [] {
      RecopyTargetIs(m[..|m| - 1], x);
      LastOf(m);
    }
  }

  /** What a run is accountable for: the targets of the plan, and under --recopy those of every copy. */
  lemma PlannedTargetsExactly(plan: Plan, next: Manifest, recopy: bool, x: Path)
    ensures x in PlannedTargets(plan, next, recopy) <==>
              || (exists a :: a in plan.preRemove && a.Unlink? && a.entry.target == x)
              || (exists a :: a in plan.backup && a.entry.target == x)
              || (exists a :: a in plan.place && a.entry.target == x)
              || (exists a :: a in plan.copies && a.entry.target == x)
              || (recopy && exists e :: e in next && e.how == Copy && e.target == x)
              || (exists a :: a in plan.remove && a.Unlink? && a.entry.target == x)
  {
    RemoveTargetIs(plan.preRemove, x);
    RemoveTargetIs(plan.remove, x);
    BackupTargetIs(plan.backup, x);
    PlaceTargetIs(plan.place, x);
    CopyTargetIs(plan.copies, x);
    RecopyTargetIs(next, x);
    hide RemoveTargets, BackupTargets, PlaceTargets, CopyTargets, RecopyTargets;
  }

  /** The members of `order` that are not done, each once, where it first stands. */
  function Unreached(order: seq<Path>, done: set<Path>): seq<Path> {
    if order == [] then []
    else
      var before, x := Unreached(order[..|order| - 1], done), order[|order| - 1];
      if x in done || x in before then before else before + [x]
  }

  lemma NoneUnreached(done: set<Path>)
    ensures Unreached([], done) == []
  {
  }

  function FirstAt(order: seq<Path>, x: Path): (n: nat)
    requires x in order
    ensures n < |order| && order[n] == x && x !in order[..n]
  {
    if order[0] == x then 0
    else
      assert order == [order[0]] + order[1..];
      var n := FirstAt(order[1..], x);
      assert order[..n + 1] == [order[0]] + order[1..][..n];
      n + 1
  }

  lemma FirstAtIs(order: seq<Path>, x: Path, n: nat)
    requires n < |order| && order[n] == x && x !in order[..n]
    ensures FirstAt(order, x) == n
  {
    var m := FirstAt(order, x);
    NotBefore(order, x, n, m);
    NotBefore(order, x, m, n);
  }

  lemma NotBefore(order: seq<Path>, x: Path, n: nat, m: nat)
    ensures m < n <= |order| && x !in order[..n] ==> order[m] != x
  {
    if m < n <= |order| { assert order[..n][m] == order[m]; }
  }

  ghost predicate InOrder(order: seq<Path>, r: seq<Path>) {
    && (forall x :: x in r ==> x in order)
    && forall i, j :: 0 <= i < j < |r| ==> FirstAt(order, r[i]) < FirstAt(order, r[j])
  }

  lemma OrderGrows(init: seq<Path>, x: Path, r: seq<Path>)
    requires InOrder(init, r)
    ensures InOrder(init + [x], r)
    ensures x !in init ==> InOrder(init + [x], r + [x])
  {
    var order := init + [x];
    forall y | y in r ensures y in order && FirstAt(order, y) == FirstAt(init, y) {
      var n := FirstAt(init, y);
      assert order[..n] == init[..n];
      FirstAtIs(order, y, n);
    }
    if x !in init {
      assert order[..|init|] == init;
      FirstAtIs(order, x, |init|);
      assert forall i :: 0 <= i < |r| ==> r[i] in r;
    }
  }

  /** The unreached list covers the plan: every planned target is done or listed; nothing done is listed;
      the list follows plan order, which also rules out repeats. */
  lemma {:induction false} UnreachedCovers(order: seq<Path>, done: set<Path>)
    ensures forall x :: x in Unreached(order, done) <==> x in order && x !in done
    ensures InOrder(order, Unreached(order, done))
  {
    if order != [] {
      var init, x := order[..|order| - 1], order[|order| - 1];
      LastOf(order);
      UnreachedCovers(init, done);
      OrderGrows(init, x, Unreached(init, done));
    }
  }

  // What a run that goes through reaches.

  lemma {:induction false} PlacingsDone(ps: seq<PlaceAction>)
    ensures forall x :: x in Placings(ps).Done() <==> x in PlaceTargets(ps)
  {
    if ps != [] {
      PlacingsDone(ps[..|ps| - 1]);
      DoneGrows(Placings(ps[..|ps| - 1]), Placing(ps[|ps| - 1]));
    }
  }

  lemma {:induction false} CopyingsDone(cs: seq<CopyAction>)
    ensures forall x :: x in Copyings(cs).Done() <==> x in CopyTargets(cs)
  {
    if cs != [] {
      CopyingsDone(cs[..|cs| - 1]);
      DoneGrows(Copyings(cs[..|cs| - 1]), NOTHING.(copied := [cs[|cs| - 1].entry.target]));
    }
  }

  lemma {:induction false} AsidingsDone(bs: seq<BackupAction>)
    ensures forall x :: x in Asidings(bs).Done() <==> x in BackupTargets(bs)
  {
    if bs != [] {
      AsidingsDone(bs[..|bs| - 1]);
      DoneGrows(Asidings(bs[..|bs| - 1]), NOTHING.(backedUp := [bs[|bs| - 1].entry.target]));
    }
  }

  lemma {:induction false} RemovingsDone(rs: seq<RemoveAction>)
    ensures forall x :: x in Removings(rs).Done() <==> x in RemoveTargets(rs)
  {
    if rs != [] {
      RemovingsDone(rs[..|rs| - 1]);
      DoneGrows(Removings(rs[..|rs| - 1]), Removing(rs[|rs| - 1]));
    }
  }

  lemma PreviewDone(plan: Plan, next: Manifest)
    ensures forall x :: x in Preview(plan).Done() <==> x in PlannedTargets(plan, next, false)
  {
    hide Placings, Copyings, Removings, Asidings, PlaceTargets, CopyTargets, RemoveTargets, BackupTargets;
    hide Report.Done, Report.Plus;
    var places, copies, pre, drops := Placings(plan.place), Copyings(plan.copies), Removings(plan.preRemove), Removings(plan.remove);
    DoneGrows(places, copies);
    DoneGrows(places.Plus(copies), pre);
    DoneGrows(places.Plus(copies).Plus(pre), drops);
    DoneGrows(places.Plus(copies).Plus(pre).Plus(drops), Asidings(plan.backup));
    PlacingsDone(plan.place);
    CopyingsDone(plan.copies);
    AsidingsDone(plan.backup);
    RemovingsDone(plan.preRemove);
    RemovingsDone(plan.remove);
  }

  lemma ForetoldDone(preview: Report, actual: Report)
    requires Foretells(preview, actual)
    ensures preview.Done() == actual.Done()
  {
  }

  lemma {:induction false} PlaceTargetIs(ps: seq<PlaceAction>, x: Path)
    ensures x in PlaceTargets(ps) <==> exists a :: a in ps && a.entry.target == x
  {
    if ps != [] {
      PlaceTargetIs(ps[..|ps| - 1], x);
      LastOf(ps);
    }
  }

  lemma {:induction false} CopyTargetIs(cs: seq<CopyAction>, x: Path)
    ensures x in CopyTargets(cs) <==> exists a :: a in cs && a.entry.target == x
  {
    if cs != [] {
      CopyTargetIs(cs[..|cs| - 1], x);
      LastOf(cs);
    }
  }

  lemma {:induction false} BackupTargetIs(bs: seq<BackupAction>, x: Path)
    ensures x in BackupTargets(bs) <==> exists a :: a in bs && a.entry.target == x
  {
    if bs != [] {
      BackupTargetIs(bs[..|bs| - 1], x);
      LastOf(bs);
    }
  }

  lemma {:induction false} RemoveTargetIs(rs: seq<RemoveAction>, x: Path)
    ensures x in RemoveTargets(rs) <==> exists r :: r in rs && r.Unlink? && r.entry.target == x
  {
    if rs != [] {
      var init, r := rs[..|rs| - 1], rs[|rs| - 1];
      LastOf(rs);
      RemoveTargetIs(init, x);
    }
  }

  /** Such a target is listed in no other part of the plan. */
  lemma SwallowedIsMissed(job: Job, pe: Entry)
    requires Steady(job) && Swallowed(job, pe)
    ensures pe.target !in PlannedTargets(job.ThePlan().(remove := Performed(job)), job.next, false)
    ensures pe.target in PlannedTargets(job.ThePlan(), job.next, false)
  {
    hide Job.Judge, T4, Crossed, Regrown;
    var x := pe.target;
    DoomedIsLive(job, pe);
    if x in PlaceTargets(job.Places(job.next)) {
      PlaceTargetIs(job.Places(job.next), x);
      var a :| a in job.Places(job.next) && a.entry.target == x;
      PlaceIsOf(job, job.next, a);
    }
    if x in CopyTargets(job.Copies(job.next)) {
      CopyTargetIs(job.Copies(job.next), x);
      var a :| a in job.Copies(job.next) && a.entry.target == x;
      CopyIsOf(job, job.next, a);
    }
    if x in BackupTargets(job.Backups(job.next)) {
      BackupTargetIs(job.Backups(job.next), x);
      var a :| a in job.Backups(job.next) && a.entry.target == x;
      BackupIsOf(job, job.next, a);
    }
    RemoveTargetIs(job.PreRemoves(job.next), x);
    RemoveTargetIs(Performed(job), x);
    RemoveTargetIs(job.Removes(job.prev), x);
    RemoveIsListed(job, job.prev, pe);
    DoomedNotPreRemoved(job, pe);
    LiveAtFour(job, pe);
    RemainingIs(T4(job), job.Removes(job.prev));
    forall r | r in job.Removes(job.prev) && r.Unlink? && r.entry.target == x ensures r == Unlink(pe) {
      RemoveIsOf(job, job.prev, r);
      assert job.PrevBy()[x] == r.entry;
    }
  }

  lemma MissedIsSwallowed(job: Job, x: Path) returns (pe: Entry)
    requires Steady(job) && x in PlannedTargets(job.ThePlan(), job.next, false)
    requires x !in PlannedTargets(job.ThePlan().(remove := Performed(job)), job.next, false)
    ensures Swallowed(job, pe) && pe.target == x
  {
    hide Job.Judge, Job.Leave, T4, Crossed, Regrown, Steady;
    RemainingIs(T4(job), job.Removes(job.prev));
    RemoveTargetIs(Performed(job), x);
    RemoveTargetIs(job.Removes(job.prev), x);
    var r :| r in job.Removes(job.prev) && r.Unlink? && r.entry.target == x;
    RemoveIsOf(job, job.prev, r);
    LiveAtFour(job, r.entry);
    pe := r.entry;
  }

  /** Once every stage has gone through, what is left to be listed as unreached is exactly the links that
      were to be removed, but went aside with a copy and did not come back. */
  lemma UnreachedExactly(job: Job, limits: seq<nat>)
    requires Steady(job) && |limits| == |job.Removes(job.prev)|
    ensures var rest := Unreached(PlannedTargets(job.ThePlan(), job.next, false),
                                  Reported(RunAll(job.view.world, job.view.tree, Schedule(job, false, limits)).events).Done());
            && (forall x :: x in rest <==> exists pe :: Swallowed(job, pe) && pe.target == x)
            && (rest == [] <==> Straight(job))
  {
    hide Job.Judge, Job.ThePlan, Swallowed, Steady, PlannedTargets, Preview, RunAll, Schedule, Reported, Unreached, InOrder;
    hide Report.Done, Performed, Foretells;
    var plan, order := job.ThePlan(), PlannedTargets(job.ThePlan(), job.next, false);
    var actual := Reported(RunAll(job.view.world, job.view.tree, Schedule(job, false, limits)).events);
    var performed := plan.(remove := Performed(job));
    var rest := Unreached(order, actual.Done());
    RunReports(job, limits);
    ForetoldDone(Preview(performed), actual);
    PreviewDone(performed, job.next);
    UnreachedCovers(order, actual.Done());
    forall x ensures x in rest <==> exists pe :: Swallowed(job, pe) && pe.target == x {
      if x in rest { var pe := MissedIsSwallowed(job, x); }
      if pe :| Swallowed(job, pe) && pe.target == x { SwallowedIsMissed(job, pe); }
    }
    NoMembers(rest);
    if pe :| Swallowed(job, pe) { assert pe.target in rest; }
  }

  lemma NoMembers(s: seq<Path>)
    ensures s == [] || s[0] in s
  {
  }

  // No write of a failed run touched what it lists as unreached.

  /** The target of a write that starts or completes an action of an entry. */
  predicate Attempts(e: Event) {
    !e.MkParent? && !e.RmDir?
  }

  /** Every attempted target is in the report, but possibly the one that failed. */
  ghost predicate Attempted(es: seq<Event>, failed: set<Path>) {
    forall e :: e in es && Attempts(e) ==> e.path in Reported(es).Done() || e.path in failed
  }

  lemma DoneGrows(a: Report, b: Report)
    ensures a.Plus(b).Done() == a.Done() + b.Done()
  {
  }

  lemma AttemptedConcat(a: seq<Event>, b: seq<Event>, failed: set<Path>)
    requires Attempted(a, {}) && Attempted(b, failed)
    ensures Attempted(a + b, failed)
  {
    ReportedConcat(a, b);
    DoneGrows(Reported(a), Reported(b));
  }

  lemma AttemptedNone(failed: set<Path>)
    ensures Attempted([], failed)
  {
  }
}
