/** When a copy that was left alone outlives the run, and when the run converges after all. */
module Undercut {
  import opened Paths
  import opened Trees
  import opened Manifests
  import opened Planner
  import opened Program
  import opened Runs
  import opened Migrations
  import opened PlanFacts
  import opened Stages
  import opened Converge
  import opened Settle
  import opened Atomic
  import opened Outcomes
  import opened Safety
  import opened Emptied
  import Reports

  predicate Kept(job: Job, e: Entry) {
    job.Judge(e).KeptCopy? || job.Judge(e).ForeignCopy?
  }

  /** On a tree like `t` at and beneath `d`, stale removal takes all of it. */
  ghost predicate Wiped(job: Job, t: Tree, d: Path) {
    Hollowed(t, LiveOnes(t, job.Removes(job.prev)), d)
  }

  /** The fresh copy of the entry, alone. */
  function Fresh(job: Job, e: Entry): Tree {
    Grafted(map[], e.target, job.view.world.content(LinkDest(e)))
  }

  /** A copy that holds nothing but stale links and directories leading to them: one that was there and is
      left alone, or the one that is made. Stale removal empties it, and pruning takes it. */
  ghost predicate Lost(job: Job, e: Entry) {
    e.how == Copy && if Kept(job, e) then Wiped(job, job.view.tree, e.target)
                     else Plantable(job, e) && Wiped(job, Fresh(job, e), e.target)
  }

  lemma StageFiveSweeps(job: Job, limits: seq<nat>)
    requires Steady(job) && |limits| == |job.Removes(job.prev)| && Unlimited(job.Removes(job.prev), limits)
    ensures Swept(T4(job), T5(job, limits), LiveOnes(T4(job), job.Removes(job.prev)))
  {
    StageFour(job);
    hide T2, T4, Job.Judge, Job.Leave;
    NothingIsRemovedTwice(job);
    Reports.OnceLater(job.PreRemoves(job.next), job.Removes(job.prev));
    forall r | r in job.Removes(job.prev) ensures r.Unlink? && Foreign(View(T4(job), job.view.world), r.entry) {
      RemoveIsOf(job, job.prev, r);
      LiveAtFour(job, r.entry);
    }
    StageSweepsExactly(job.view.world, T4(job), job.Removes(job.prev), limits);
  }

  /** Whether a directory is swept away is told by what stands at and beneath it. */
  lemma WipedAlike(job: Job, t: Tree, u: Tree, d: Path)
    requires forall q :: d <= q ==> (q in t <==> q in u) && (q in t ==> t[q] == u[q])
    ensures Wiped(job, t, d) <==> Wiped(job, u, d)
  {
    var rs := job.Removes(job.prev);
    forall q | d <= q ensures q in LiveOnes(t, rs) <==> q in LiveOnes(u, rs) {
      if q in LiveOnes(t, rs) { LiveAlike(t, u, rs, q); }
      if q in LiveOnes(u, rs) { LiveAlike(u, t, rs, q); }
    }
    HollowAlike(t, u, LiveOnes(t, rs), LiveOnes(u, rs), d);
  }

  lemma LiveAlike(t: Tree, u: Tree, rs: seq<RemoveAction>, q: Path)
    requires q in LiveOnes(t, rs) && (q in t <==> q in u) && (q in t ==> t[q] == u[q])
    ensures q in LiveOnes(u, rs)
  {
    var r :| r in rs && r.Unlink? && Live(t, r.entry) && r.At() == q;
    assert Live(u, r.entry);
  }

  lemma LeadsAlike(gone: set<Path>, more: set<Path>, d: Path, q: Path)
    requires d <= q && Leads(gone, q) && forall x :: d <= x && x in gone ==> x in more
    ensures Leads(more, q)
  {
    var r :| r in gone && q < r;
    assert d <= r;
  }

  lemma HollowAlike(t: Tree, u: Tree, gone: set<Path>, more: set<Path>, d: Path)
    requires forall q :: d <= q ==> (q in t <==> q in u) && (q in t ==> t[q] == u[q]) && (q in gone <==> q in more)
    ensures Hollowed(t, gone, d) <==> Hollowed(u, more, d)
  {
    hide Leads;
    forall q | d <= q ensures Leads(gone, q) <==> Leads(more, q) {
      if Leads(gone, q) { LeadsAlike(gone, more, d, q); }
      if Leads(more, q) { LeadsAlike(more, gone, d, q); }
    }
  }

  /** What survives stage 5 at a target of next. */
  lemma TargetAfterSweep(job: Job, limits: seq<nat>, e: Entry)
    requires Steady(job) && |limits| == |job.Removes(job.prev)| && Unlimited(job.Removes(job.prev), limits)
    requires e in job.next && e.target in T4(job)
    ensures e.target in T5(job, limits) <==> !Wiped(job, T4(job), e.target)
    ensures e.target in T5(job, limits) ==> T5(job, limits)[e.target] == T4(job)[e.target]
  {
    StageFiveSweeps(job, limits);
    hide T2, T4, T5, Job.Judge, Job.Leave, Hollowed;
    forall r | r in job.Removes(job.prev) ensures r.At() != e.target {
      RemoveIsOf(job, job.prev, r);
      InNextBy(job, e);
      DoomedIsLive(job, r.entry);
    }
  }

  // An entry that is placed or copied.

  lemma FreshAt(p: Path, sub: Tree, y: Path)
    ensures var f := Grafted(map[], p, sub); (p + y in f <==> y in sub) && (y in sub ==> f[p + y] == sub[y])
  {
    GraftedAt(map[], p, sub);
    assert (p + y)[|p|..] == y && p <= p + y;
  }

  lemma FreshAgrees(job: Job, e: Entry, q: Path)
    requires Runnable(job) && e in job.next && e.how == Copy && Plantable(job, e) && e.target <= q
    ensures q in Fresh(job, e) <==> q in T4(job)
    ensures q in Fresh(job, e) ==> Fresh(job, e)[q] == T4(job)[q]
  {
    hide T4, Plantable, Grafted, Runnable;
    var y := q[|e.target|..];
    assert q == e.target + y;
    FreshAt(e.target, job.view.world.content(LinkDest(e)), y);
    FreshAtFour(job, e, y);
  }

  lemma FreshAlike(job: Job, e: Entry)
    requires Steady(job) && e in job.next && e.how == Copy && Plantable(job, e)
    ensures Wiped(job, Fresh(job, e), e.target) <==> Wiped(job, T4(job), e.target)
  {
    hide *;
    SteadyRunnable(job);
    forall q | e.target <= q
      ensures (q in Fresh(job, e) <==> q in T4(job)) && (q in Fresh(job, e) ==> Fresh(job, e)[q] == T4(job)[q])
    {
      FreshAgrees(job, e, q);
    }
    WipedAlike(job, Fresh(job, e), T4(job), e.target);
  }

  lemma SteadyRunnable(job: Job)
    requires Steady(job)
    ensures Runnable(job)
  {
  }

  lemma PlantedLinkStands(job: Job, limits: seq<nat>, e: Entry)
    requires Steady(job) && |limits| == |job.Removes(job.prev)| && e in job.next && e.how == Symlink && Plantable(job, e)
    ensures InPlace(job.view.world, T5(job, limits), e)
  {
    hide T2, T4, T5, Job.Judge, Plantable;
    var a := PlantIsListed(job, e);
    PlantIsOf(job, a);
    PlantedRoot(job, limits, a);
  }

  lemma PlantedCopyExactly(job: Job, limits: seq<nat>, e: Entry)
    requires Steady(job) && |limits| == |job.Removes(job.prev)| && Unlimited(job.Removes(job.prev), limits)
    requires e in job.next && e.how == Copy && Plantable(job, e)
    ensures InPlace(job.view.world, T5(job, limits), e) <==> !Wiped(job, Fresh(job, e), e.target)
  {
    hide T2, T4, T5, Job.Judge, Plantable, Wiped;
    var a := PlantIsListed(job, e);
    SourceRoot(job, a);
    FreshAtFour(job, e, []);
    assert e.target + [] == e.target;
    FreshAlike(job, e);
    TargetAfterSweep(job, limits, e);
  }

  // Beneath a copy that is left alone nothing changes before stale removal.

  lemma NoPreRemovalBeneath(job: Job, e: Entry, q: Path)
    requires job.Valid() && PrefixFree(job.next) && e in job.next && Kept(job, e) && e.target <= q
    ensures q !in At(job.PreRemoves(job.next))
  {
    if q in At(job.PreRemoves(job.next)) {
      var a :| a in job.PreRemoves(job.next) && a.At() == q;
      var f := PreRemoveIsOf(job, job.next, a);
      AskedIsThere(job, f, a);
      if job.Judge(f).Nested? || job.Judge(f).Converted? {
        PrefixFreeOn(job.next, e, f);
      } else {
        Comparable(e.target, f.target, q);
        if e.target <= f.target { PrefixFreeOn(job.next, e, f); } else { PrefixFreeOn(job.next, f, e); }
      }
    }
  }

  /** A planted entry is another one, off the line of a copy that is left alone. */
  lemma PlantIsOffTheLine(job: Job, e: Entry, a: Action)
    requires job.Valid() && PrefixFree(job.next) && e in job.next && Kept(job, e) && a in PlantActions(job)
    ensures Plants(a) && Apart(a.entry.target, e.target)
  {
    PlantIsOf(job, a);
    EntriesApart(job.next, a.entry, e);
  }

  lemma NoPlantBeneath(job: Job, e: Entry, q: Path)
    requires job.Valid() && PrefixFree(job.next) && e in job.next && Kept(job, e) && e.target <= q
    ensures !Touched(PlantActions(job), q)
  {
    hide T2, T4, T5, Job.Judge, Kept, PlantActions;
    forall a | a in PlantActions(job) ensures Plants(a) && !(a.entry.target <= q) && !(q < a.entry.target) {
      PlantIsOffTheLine(job, e, a);
      ApartBeneath(a.entry.target, e.target, q);
    }
  }

  lemma ApartBeneath(x: Path, p: Path, q: Path)
    requires Apart(x, p) && p <= q
    ensures Apart(x, q)
  {
    if x <= q { Comparable(x, p, q); }
  }

  lemma BackupOffTheLine(job: Job, e: Entry, b: BackupAction)
    requires Orderly(job) && e in job.next && Kept(job, e) && b in job.Backups(job.next)
    ensures Apart(b.entry.target, e.target) && Apart(b.aside, e.target)
  {
    BackupIs(job, b);
    EntriesApart(job.next, b.entry, e);
    AsideApart(job.next, job.opts.Suffix(), b.entry, e);
  }

  lemma NoRenameBeneath(job: Job, e: Entry, q: Path)
    requires Orderly(job) && e in job.next && Kept(job, e) && e.target <= q
    ensures !Renamed(job.Backups(job.next), q)
  {
    hide Job.Judge, Kept;
    forall b | b in job.Backups(job.next) ensures !(b.entry.target <= q) && !(b.aside <= q) {
      BackupOffTheLine(job, e, b);
      ApartBeneath(b.entry.target, e.target, q);
      ApartBeneath(b.aside, e.target, q);
    }
  }

  lemma BeneathAtTwo(job: Job, e: Entry, q: Path)
    requires Orderly(job) && e in job.next && Kept(job, e) && e.target <= q
    ensures q in T2(job) <==> q in job.view.tree
    ensures q in T2(job) ==> T2(job)[q] == job.view.tree[q]
  {
    StageTwo(job);
    hide T2, Job.Judge, Kept, Renamed;
    NoPreRemovalBeneath(job, e, q);
    NoRenameBeneath(job, e, q);
  }

  lemma BeneathIsAsItWas(job: Job, e: Entry, q: Path)
    requires Runnable(job) && e in job.next && Kept(job, e) && e.target <= q
    ensures q in T4(job) <==> q in job.view.tree
    ensures q in T4(job) ==> T4(job)[q] == job.view.tree[q]
  {
    StageFour(job);
    hide T2, T4, Job.Judge, Grown, Touched, Kept, PlantActions;
    NoPlantBeneath(job, e, q);
    BeneathAtTwo(job, e, q);
    GrownElsewhere(job.view.world, T2(job), T4(job), PlantActions(job), q);
  }

  lemma KeptExactly(job: Job, limits: seq<nat>, e: Entry)
    requires Steady(job) && |limits| == |job.Removes(job.prev)| && Unlimited(job.Removes(job.prev), limits)
    requires e in job.next && Kept(job, e)
    ensures InPlace(job.view.world, T5(job, limits), e) <==> !Wiped(job, job.view.tree, e.target)
  {
    hide T2, T4, T5, Job.Judge, Wiped, Kept;
    KeptIsCopy(job, e);
    forall q | e.target <= q
      ensures (q in job.view.tree <==> q in T4(job)) && (q in job.view.tree ==> job.view.tree[q] == T4(job)[q])
    {
      BeneathIsAsItWas(job, e, q);
    }
    WipedAlike(job, job.view.tree, T4(job), e.target);
    assert e.target <= e.target;
    TargetAfterSweep(job, limits, e);
    if e.target in T5(job, limits) { KeptKind(job, T5(job, limits), e); }
  }

  lemma KeptIsCopy(job: Job, e: Entry)
    requires job.Valid() && Kept(job, e)
    ensures e.how == Copy && e.target in job.view.tree
  {
    KeptIsThere(job, e);
  }

  lemma KeptKind(job: Job, u: Tree, e: Entry)
    requires job.Valid() && Kept(job, e) && e.target in u && e.target in job.view.tree && u[e.target] == job.view.tree[e.target]
    ensures InPlace(job.view.world, u, e)
  {
    KeptHasItsKind(job, u, e);
  }

  lemma AcceptedVerdict(job: Job, e: Entry)
    requires job.Valid() && job.Accepted() && e in job.next
    ensures Plantable(job, e) <==> !Kept(job, e)
    ensures e.how == Symlink || e.how == Copy
  {
    JudgeMeans(job, e);
    if job.Judge(e).Clash? { ConflictIsListed(job, job.next, e); }
  }

  /** An entry is in place at the end of a run unless it is a copy the run empties. */
  lemma InPlaceExactly(job: Job, limits: seq<nat>, e: Entry)
    requires Steady(job) && |limits| == |job.Removes(job.prev)| && Unlimited(job.Removes(job.prev), limits)
    requires e in job.next
    ensures InPlace(job.view.world, T5(job, limits), e) <==> !Lost(job, e)
  {
    hide T2, T4, T5, Plantable, Kept, Wiped, InPlace;
    AcceptedVerdict(job, e);
    if Kept(job, e) {
      KeptIsCopy(job, e);
      KeptExactly(job, limits, e);
    } else if e.how == Copy {
      PlantedCopyExactly(job, limits, e);
    } else {
      PlantedLinkStands(job, limits, e);
    }
  }

  /** Convergence, exactly: a run in which no call fails, whatever the plan left alone and with --backup or
      without, has every entry of next in place but the copies that hold nothing except stale links. */
  lemma ConvergesExactly(job: Job, limits: seq<nat>)
    requires Steady(job) && |limits| == |job.Removes(job.prev)| && Unlimited(job.Removes(job.prev), limits)
    ensures RunAll(job.view.world, job.view.tree, Schedule(job, false, limits)).done
    ensures var u := End(job.view.world, job.view.tree, Schedule(job, false, limits));
            && ValidTree(u)
            && (forall e :: e in job.next ==> (InPlace(job.view.world, u, e) <==> !Lost(job, e)))
            && (forall pe :: pe in job.prev && pe.target !in job.NextBy() && pe.how != Copy && Live(job.view.tree, pe) ==>
                  !Live(u, pe))
            && LeavesSettled(job, u) && DirsAccountedFor(job, u) && DirsKept(job, u)
  {
    hide T2, T4, T5, InPlace, Lost;
    StagesChain(job, limits);
    StageFive(job, limits);
    Settles(job, limits);
    SettlesDirs(job, limits);
    forall e | e in job.next ensures InPlace(job.view.world, T5(job, limits), e) <==> !Lost(job, e) {
      InPlaceExactly(job, limits, e);
    }
    forall pe | pe in job.prev && pe.target !in job.NextBy() && pe.how != Copy && Live(job.view.tree, pe)
      ensures !Live(T5(job, limits), pe)
    {
      DroppedIsGone(job, limits, pe);
    }
  }

  /** Without a dropped target beneath a copy, nothing is lost. */
  lemma UncrossedLosesNothing(job: Job, e: Entry)
    requires Good(job) && e in job.next
    ensures !Lost(job, e)
  {
    hide Job.Judge, Kept, Plantable;
    if e.how == Copy {
      forall r | r in job.Removes(job.prev) ensures !(e.target < r.At()) {
        RemoveIsOf(job, job.prev, r);
        DoomedIsLive(job, r.entry);
      }
    }
  }

  // Idempotence.

  function NothingToDo(next: Manifest): Computed {
    Planned(Plan(Replaces(next), [], [], [], [], [], []))
  }

  lemma NothingToDoVerdict(job: Job, e: Entry)
    requires job.Valid() && job.Compute() == NothingToDo(job.next) && e in job.next
    ensures job.Judge(e) == Relinked(true) || Kept(job, e)
  {
    hide Job.Judge;
    assert job.Readable();
    JudgeMeans(job, e);
    if job.Judge(e).Clash? { ConflictIsListed(job, job.next, e); }
    if CopyAction(e) in job.CopiesOf(e) { CopyIsListed(job, job.next, e, CopyAction(e)); }
    if job.PlaceOf(e) != [] {
      PlaceIsListed(job, job.next, e, job.PlaceOf(e)[0]);
      ReplacesAreLinks(job.next, job.PlaceOf(e)[0]);
    }
  }

  lemma RecordedPoints(v: View, next: Manifest, opts: Options, e: Entry)
    requires PrefixFree(next) && e in next && e.target in v.tree && Job(next, next, v, opts).RecordedLink(e.target)
    ensures v.tree[e.target] == Link(LinkDest(e))
  {
    PrefixFreeIsDistinct(next);
    ByTargetIsExact(next, e);
  }

  lemma RelinkedMeans(job: Job, e: Entry)
    requires job.Valid() && job.Judge(e) == Relinked(true)
    ensures e.how == Symlink && e.target in job.view.tree && job.RecordedLink(e.target)
  {
    JudgeMeans(job, e);
  }

  lemma NothingToDoIsInPlace(job: Job, e: Entry)
    requires job.Valid() && PrefixFree(job.next) && job.prev == job.next
    requires job.Compute() == NothingToDo(job.next) && e in job.next
    ensures InPlace(job.view.world, job.view.tree, e)
  {
    hide Job.Judge, Job.Compute, Job.RecordedLink;
    NothingToDoVerdict(job, e);
    if Kept(job, e) {
      KeptIsThere(job, e);
      KeptHasItsKind(job, job.view.tree, e);
    } else {
      RelinkedMeans(job, e);
      RecordedPoints(job.view, job.next, job.opts, e);
    }
  }

  /** A manifest planned against itself comes to nothing but links to re-link to where they already
      point exactly where all of it is in place. */
  lemma NothingToDoExactly(next: Manifest, u: Tree, w: World, opts: Options)
    requires ValidTree(u) && ValidWorld(w) && PrefixFree(next)
    ensures Job(next, next, View(u, w), opts).Compute() == NothingToDo(next) <==> forall e :: e in next ==> InPlace(w, u, e)
  {
    hide Job.Judge, Job.Compute, InPlace;
    var job := Job(next, next, View(u, w), opts);
    if job.Compute() == NothingToDo(next) {
      forall e | e in next ensures InPlace(w, u, e) { NothingToDoIsInPlace(job, e); }
    }
    if forall e :: e in next ==> InPlace(w, u, e) { InPlaceNeedsNothing(next, u, w, opts); }
  }

  /** Idempotence, exactly: a second run finds nothing to do unless the first one emptied a copy. */
  lemma SecondRunExactly(job: Job, limits: seq<nat>, opts: Options)
    requires Steady(job) && |limits| == |job.Removes(job.prev)| && Unlimited(job.Removes(job.prev), limits)
    ensures var u := End(job.view.world, job.view.tree, Schedule(job, false, limits));
            Job(job.next, job.next, View(u, job.view.world), opts).Compute() == NothingToDo(job.next)
            <==> forall e :: e in job.next ==> !Lost(job, e)
  {
    hide Job.Judge, Job.Compute, InPlace, Lost, End, Schedule;
    var u := End(job.view.world, job.view.tree, Schedule(job, false, limits));
    ConvergesExactly(job, limits);
    NothingToDoExactly(job.next, u, job.view.world, opts);
  }
}
