/** The tree a successful run settles into, node by node. */
module Settle {
  import opened Paths
  import opened Trees
  import opened Manifests
  import opened Planner
  import opened Program
  import opened Runs
  import opened Migrations
  import opened PlanFacts
  import opened Stages
  import opened Converge

  /** A node other than a directory. */
  function Leaf(t: Tree, q: Path): Option<Node> {
    if q in t && t[q] != Dir then Some(t[q]) else None
  }

  /** q holds a link as recorded by an entry that next drops (a dropped copy is never removed). */
  predicate Dropped(job: Job, q: Path) {
    exists pe :: pe in job.prev && pe.target == q && q !in job.NextBy() && pe.how != Copy && Live(job.view.tree, pe)
  }

  function T5(job: Job, limits: seq<nat>): Tree
    requires |limits| == |job.Removes(job.prev)|
  {
    End(job.view.world, T4(job), DropsOf(job, limits))
  }

  ghost predicate Occupied(job: Job, q: Path) {
    exists a :: a in PlantActions(job) && Plants(a) && a.entry.target <= q
  }

  /** The entry lies beneath a copy target whose occupant `--backup` sets aside, to copy afresh. */
  predicate Crosses(job: Job, e: Entry, pe: Entry) {
    e in job.next && e.how == Copy && job.Judge(e).Aside? && e.target < pe.target
  }

  ghost predicate Crossed(job: Job, pe: Entry) {
    exists e :: Crosses(job, e, pe)
  }

  /** The link the entry recorded, as the fresh copy brings it back. */
  predicate Brings(job: Job, e: Entry, pe: Entry)
    requires e.target <= pe.target
  {
    var sub, x := job.view.world.content(LinkDest(e)), pe.target[|e.target|..];
    x in sub && sub[x] == Link(LinkDest(pe))
  }

  ghost predicate Regrown(job: Job, pe: Entry) {
    exists e :: Crosses(job, e, pe) && Brings(job, e, pe)
  }

  /** What lstat sees through a symlink within such a copy is not the link that prev recorded. */
  ghost predicate SourcesForeign(job: Job) {
    forall e, pe :: pe in job.prev && Crosses(job, e, pe) ==>
      var v, x := View(job.view.world.content(LinkDest(e)), job.view.world), pe.target[|e.target|..];
      Lstat(v, x) == Found(Link(LinkDest(pe))) ==> x in v.tree
  }

  /** A plan that can be carried out. */
  ghost predicate Steady(job: Job) {
    Standing(job) && job.Accepted() && SourcesExist(job) && SourcesForeign(job)
  }

  ghost predicate Good(job: Job) {
    Steady(job) && Uncrossed(job)
  }

  // Links the remove side takes.

  lemma DoomedIsLive(job: Job, pe: Entry)
    requires Standing(job) && pe in job.prev && job.Leave(pe).Doomed?
    ensures Live(job.view.tree, pe) && Dropped(job, pe.target)
    ensures pe.target !in job.NextBy() && pe.target !in job.Marks(job.next) && pe.target in job.PrevBy()
  {
    RecordedMeansLive(job.view, pe);
  }

  lemma DoomedNotPreRemoved(job: Job, pe: Entry)
    requires Standing(job) && pe in job.prev && job.Leave(pe).Doomed?
    ensures pe.target !in At(job.PreRemoves(job.next))
  {
    DoomedIsLive(job, pe);
    if pe.target in At(job.PreRemoves(job.next)) {
      var a :| a in job.PreRemoves(job.next) && a.At() == pe.target;
      var e := PreRemoveIsOf(job, job.next, a);
      AskedIsThere(job, e, a);
      UnlinksAreMarked(job, job.next, a);
    }
  }

  lemma SweptIsMarked(job: Job, e: Entry, q: Path)
    requires e in job.next && job.Judge(e) == Aside(true) && e.target <= q && q in job.PrevBy()
    ensures q in job.Marks(job.next)
  {
    assert q in job.MarksOf(e);
    MarkIsListed(job, job.next, e, q);
  }

  lemma UnmarkedNotUnderBackup(job: Job, pe: Entry, b: BackupAction)
    requires job.Valid() && !Crossed(job, pe) && pe in job.prev && b in job.Backups(job.next)
    requires pe.target in job.view.tree && pe.target in job.PrevBy() && pe.target !in job.NextBy()
    requires pe.target !in job.Marks(job.next)
    ensures !(b.entry.target < pe.target)
  {
    BackupIs(job, b);
    JudgeMeans(job, b.entry);
    if b.entry.target < pe.target {
      assert !Crosses(job, b.entry, pe);
      AncestorsAreDirs(job.view.tree, pe.target, b.entry.target);
      SweptIsMarked(job, b.entry, pe.target);
    }
  }

  lemma DoomedNotUnderBackup(job: Job, pe: Entry, b: BackupAction)
    requires Steady(job) && pe in job.prev && job.Leave(pe).Doomed? && !Crossed(job, pe) && b in job.Backups(job.next)
    ensures !(b.entry.target <= pe.target)
  {
    DoomedIsLive(job, pe);
    UnmarkedNotUnderBackup(job, pe, b);
    BackupIs(job, b);
    InNextBy(job, b.entry);
    assert b.entry.target <= pe.target ==> b.entry.target == pe.target || b.entry.target < pe.target;
  }

  lemma NotUnderAside(job: Job, b: BackupAction, q: Path)
    requires job.Valid() && b in job.Backups(job.next) && q in job.view.tree
    ensures !(b.aside <= q)
  {
    BackupIs(job, b);
    NothingBeneath(job.view.tree, b.aside);
    assert b.aside <= q ==> b.aside == q || b.aside < q;
  }

  lemma DoomedNotRenamed(job: Job, pe: Entry)
    requires Steady(job) && pe in job.prev && job.Leave(pe).Doomed? && !Crossed(job, pe)
    ensures !Renamed(job.Backups(job.next), pe.target)
  {
    DoomedIsLive(job, pe);
    forall b | b in job.Backups(job.next) ensures !(b.entry.target <= pe.target) && !(b.aside <= pe.target) {
      DoomedNotUnderBackup(job, pe, b);
      NotUnderAside(job, b, pe.target);
    }
  }

  lemma WayLeaf(t: Tree, x: Path, q: Path)
    requires ValidTree(t) && q < x && WayClear(t, x)
    ensures Leaf(t, q) == None
  {
    assert q == x[..|q|];
  }

  /** A link that is neither a target nor its own way is apart from a ready target. */
  lemma LinkIsOffTheWay(t: Tree, x: Path, q: Path)
    requires ValidTree(t) && q in t && t[q].Link? && q != x
    requires if x in t then t[x].Link? else WayClear(t, x)
    ensures Apart(x, q)
  {
    if x <= q { AncestorsAreDirs(t, q, x); }
    if q <= x {
      if x in t { AncestorsAreDirs(t, x, q); } else { WayLeaf(t, x, q); }
    }
  }

  lemma DoomedIsIntact(job: Job, pe: Entry)
    requires Steady(job) && pe in job.prev && job.Leave(pe).Doomed? && !Crossed(job, pe)
    ensures Live(T2(job), pe)
  {
    hide T2, T4, T5;
    DoomedIsLive(job, pe);
    DoomedNotPreRemoved(job, pe);
    DoomedNotRenamed(job, pe);
    StageTwo(job);
  }

  lemma DoomedIsApart(job: Job, pe: Entry, a: Action)
    requires Steady(job) && pe in job.prev && job.Leave(pe).Doomed? && !Crossed(job, pe) && a in PlantActions(job)
    ensures Plants(a) && Apart(a.entry.target, pe.target)
  {
    hide T2, T4, T5;
    DoomedIsIntact(job, pe);
    DoomedIsLive(job, pe);
    PlantIsOf(job, a);
    InNextBy(job, a.entry);
    TargetIsReady(job, a.entry);
    StageTwo(job);
    LinkIsOffTheWay(T2(job), a.entry.target, pe.target);
  }

  /** Until stale removal, a doomed link stands as recorded. */
  lemma DoomedStands(job: Job, pe: Entry)
    requires Steady(job) && pe in job.prev && job.Leave(pe).Doomed? && !Crossed(job, pe)
    ensures Live(T4(job), pe)
  {
    hide T2, T4, T5;
    DoomedIsIntact(job, pe);
    StageFour(job);
    forall a | a in PlantActions(job) ensures !a.PreRmDir? && !(a.entry.target <= pe.target) && !(pe.target < a.entry.target) {
      DoomedIsApart(job, pe, a);
    }
    assert !Touched(PlantActions(job), pe.target);
  }

  /** A dropped live link is pre-removed, leaves with a backed-up directory, or is planned for removal. */
  lemma DroppedIsDoomed(job: Job, pe: Entry)
    requires Orderly(job) && job.Accepted() && pe in job.prev && pe.target !in job.NextBy() && pe.how != Copy
    requires Live(job.view.tree, pe)
    ensures || pe.target in At(job.PreRemoves(job.next))
            || Renamed(job.Backups(job.next), pe.target)
            || Unlink(pe) in job.Removes(job.prev)
  {
    var q := pe.target;
    if q in job.Marks(job.next) {
      MarkedIsPreRemoved(job, job.next, q);
      if q !in At(job.PreRemoves(job.next)) {
        var e :| e in job.next && Sweeps(job, e) && e.target <= q;
        if job.Judge(e).Clash? { ConflictIsListed(job, job.next, e); }
        var b := BackupAction(e, WithSuffix(e.target, job.opts.Suffix()));
        BackupIsListed(job, job.next, e, b);
        assert b.entry.target <= q;
      }
    } else {
      RemoveIsListed(job, job.prev, pe);
    }
  }

  // Beneath a copy that took the place of what went aside.

  lemma {:induction false} NearestBeneath(t: Tree, u: Tree, p: Path, x: Path)
    requires [] in t && [] in u && forall y :: y in u <==> p + y in t
    ensures Nearest(t, p + x) == p + Nearest(u, x)
  {
    var n := Nearest(u, x);
    assert n in u && p + n in t && p + n <= p + x;
    forall r | r in t && r <= p + x ensures r <= p + n {
      Comparable(r, p + n, p + x);
      if p + n <= r {
        var y := r[|p|..];
        assert r == p + y && y <= x;
        NearestIsLast(u, x, y);
      }
    }
    NearestIs(t, p + x, p + n);
  }

  lemma LstatBeneath(w: World, t: Tree, u: Tree, p: Path, x: Path)
    requires [] in t && [] in u && (forall y :: y in u <==> p + y in t) && forall y :: y in u ==> t[p + y] == u[y]
    ensures Lstat(View(t, w), p + x) == Lstat(View(u, w), x)
  {
    if x !in u {
      NearestBeneath(t, u, p, x);
      var n := Nearest(u, x);
      assert (p + x)[|p + n|..] == x[|n|..];
    }
  }

  /** Where a fresh copy stands, the tree before stale removal is its source. */
  lemma FreshAtFour(job: Job, e: Entry, y: Path)
    requires Runnable(job) && e in job.next && e.how == Copy && Plantable(job, e)
    ensures var sub := job.view.world.content(LinkDest(e));
            (e.target + y in T4(job) <==> y in sub) && (y in sub ==> T4(job)[e.target + y] == sub[y])
  {
    var a := PlantIsListed(job, e);
    StageFour(job);
    hide T2, T4, T5, Grown, PlantActions, Job.Judge, Plantable, Runnable;
    GrownBeneath(job.view.world, T2(job), T4(job), PlantActions(job), a, y);
  }

  lemma CrosserIsPlanted(job: Job, e: Entry, pe: Entry)
    requires Steady(job) && Crosses(job, e, pe)
    ensures Plantable(job, e) && [] in job.view.world.content(LinkDest(e))
  {
    hide T2, T4, T5;
    var a := PlantIsListed(job, e);
    PlantIsOf(job, a);
  }

  /** A recorded link looked up beneath a copied subtree. */
  lemma LookedUp(w: World, t: Tree, sub: Tree, p: Path, pe: Entry)
    requires [] in t && [] in sub && p <= pe.target
    requires (forall y :: y in sub <==> p + y in t) && forall y :: y in sub ==> t[p + y] == sub[y]
    requires Lstat(View(sub, w), pe.target[|p|..]) == Found(Link(LinkDest(pe))) ==> pe.target[|p|..] in sub
    ensures Live(t, pe) <==> pe.target[|p|..] in sub && sub[pe.target[|p|..]] == Link(LinkDest(pe))
    ensures Foreign(View(t, w), pe)
  {
    assert pe.target == p + pe.target[|p|..];
    LstatBeneath(w, t, sub, p, pe.target[|p|..]);
  }

  lemma FourHasRoot(job: Job)
    requires Runnable(job)
    ensures [] in T4(job)
  {
    StageFour(job);
  }

  lemma SourceSight(job: Job, e: Entry, pe: Entry)
    requires Steady(job) && pe in job.prev && Crosses(job, e, pe)
    ensures var sub, x := job.view.world.content(LinkDest(e)), pe.target[|e.target|..];
            Lstat(View(sub, job.view.world), x) == Found(Link(LinkDest(pe))) ==> x in sub
  {
  }

  lemma CrosserIs(job: Job, e: Entry, pe: Entry)
    requires Steady(job) && Crosses(job, e, pe)
    ensures Runnable(job) && e in job.next && e.how == Copy && e.target < pe.target && e.target <= pe.target
  {
  }

  lemma CrossedAtFour(job: Job, e: Entry, pe: Entry)
    requires Steady(job) && pe in job.prev && Crosses(job, e, pe)
    ensures Live(T4(job), pe) <==> Brings(job, e, pe)
    ensures Foreign(View(T4(job), job.view.world), pe)
  {
    hide *;
    var sub := job.view.world.content(LinkDest(e));
    CrosserIs(job, e, pe);
    CrosserIsPlanted(job, e, pe);
    SourceSight(job, e, pe);
    FourHasRoot(job);
    forall y ensures (y in sub <==> e.target + y in T4(job)) && (y in sub ==> T4(job)[e.target + y] == sub[y]) {
      FreshAtFour(job, e, y);
    }
    LookedUp(job.view.world, T4(job), sub, e.target, pe);
    BringsIs(job, e, pe);
  }

  lemma BringsIs(job: Job, e: Entry, pe: Entry)
    requires e.target <= pe.target
    ensures var sub, x := job.view.world.content(LinkDest(e)), pe.target[|e.target|..];
            Brings(job, e, pe) <==> x in sub && sub[x] == Link(LinkDest(pe))
  {
  }

  lemma OneCrosser(job: Job, e: Entry, f: Entry, pe: Entry)
    requires job.Valid() && PrefixFree(job.next) && Crosses(job, e, pe) && Crosses(job, f, pe)
    ensures e == f
  {
    Comparable(e.target, f.target, pe.target);
    if e.target <= f.target { PrefixFreeOn(job.next, e, f); } else { PrefixFreeOn(job.next, f, e); }
  }

  /** Of the planned removals, those that still find their link. */
  lemma LiveAtFour(job: Job, pe: Entry)
    requires Steady(job) && pe in job.prev && job.Leave(pe).Doomed?
    ensures Live(T4(job), pe) <==> !Crossed(job, pe) || Regrown(job, pe)
    ensures Foreign(View(T4(job), job.view.world), pe)
  {
    hide T2, T4, T5, Job.Judge, Job.Leave;
    if e :| Crosses(job, e, pe) {
      CrossedAtFour(job, e, pe);
      forall f | Crosses(job, f, pe) ensures f == e { OneCrosser(job, e, f, pe); }
    } else {
      DoomedStands(job, pe);
    }
  }

  // Stage 5.

  lemma StageFive(job: Job, limits: seq<nat>)
    requires Steady(job) && |limits| == |job.Removes(job.prev)|
    ensures RunAll(job.view.world, T4(job), DropsOf(job, limits)).done
    ensures ValidTree(T5(job, limits)) && Shrunk(T4(job), T5(job, limits), job.Removes(job.prev))
  {
    StageFour(job);
    RemovesUnlink(job, job.prev);
    hide Steady, T4, Job.Judge, Job.Leave;
    forall r | r in job.Removes(job.prev) ensures r.Unlink? && Foreign(View(T4(job), job.view.world), r.entry) {
      RemoveIsOf(job, job.prev, r);
      LiveAtFour(job, r.entry);
    }
    DropsRun(job.view.world, T4(job), job.Removes(job.prev), limits);
  }

  /** What stage 5 takes that is not a directory is a dropped link: one no placement touches, or one a
      fresh copy brought back. */
  lemma TakenIsDropped(job: Job, limits: seq<nat>, q: Path) returns (pe: Entry)
    requires Steady(job) && |limits| == |job.Removes(job.prev)|
    requires q in T4(job) && q !in T5(job, limits) && T4(job)[q] != Dir
    ensures pe in job.prev && pe.target == q && job.Leave(pe).Doomed? && Dropped(job, q)
    ensures Crossed(job, pe) ==> Regrown(job, pe)
    ensures !Crossed(job, pe) ==> !Renamed(job.Backups(job.next), q) && !Occupied(job, q)
  {
    hide T2, T4, T5, Job.Leave, Job.Judge;
    StageFive(job, limits);
    var r :| r in job.Removes(job.prev) && r.entry.target == q && Live(T4(job), r.entry);
    pe := r.entry;
    RemoveIsOf(job, job.prev, r);
    DoomedIsLive(job, pe);
    LiveAtFour(job, pe);
    if !Crossed(job, pe) {
      DoomedNotRenamed(job, pe);
      forall a | a in PlantActions(job) ensures Plants(a) && !(a.entry.target <= q) { DoomedIsApart(job, pe, a); }
    }
  }

  lemma PrunedIsAbove(job: Job, limits: seq<nat>, q: Path) returns (p: Path)
    requires Steady(job) && |limits| == |job.Removes(job.prev)|
    requires q in T4(job) && q !in T5(job, limits) && T4(job)[q] == Dir
    ensures q < p && Dropped(job, p)
    ensures exists pe :: pe in job.prev && pe.target == p && p !in job.NextBy()
  {
    hide T2, T4, T5;
    StageFive(job, limits);
    var r :| r in job.Removes(job.prev) && q < r.entry.target && Live(T4(job), r.entry);
    RemoveIsOf(job, job.prev, r);
    DoomedIsLive(job, r.entry);
    p := r.entry.target;
  }

  /** A planned removal that still finds its link when its turn comes happens. */
  lemma RemovedIsGone(job: Job, limits: seq<nat>, pe: Entry)
    requires Steady(job) && |limits| == |job.Removes(job.prev)| && Unlink(pe) in job.Removes(job.prev)
    ensures !Live(T5(job, limits), pe)
    ensures !Crossed(job, pe) || Regrown(job, pe) ==> pe.target !in T5(job, limits)
  {
    hide T2, T4, T5, Job.Leave, Job.Judge;
    StageFive(job, limits);
    RemoveIsOf(job, job.prev, Unlink(pe));
    LiveAtFour(job, pe);
    assert Unlink(pe).entry == pe;
  }

  // Leaf by leaf.

  /** A dropped link that a fresh copy brought back is unlinked again. */
  ghost predicate Uprooted(job: Job, q: Path) {
    exists pe :: pe in job.prev && pe.target == q && job.Leave(pe).Doomed? && Regrown(job, pe)
  }

  lemma PlantedLeaf(job: Job, limits: seq<nat>, a: Action, q: Path)
    requires Steady(job) && |limits| == |job.Removes(job.prev)|
    requires a in PlantActions(job) && Plants(a) && a.entry.target <= q
    ensures Leaf(T5(job, limits), q) == if Uprooted(job, q) then None else Leaf(Crop(job.view.world, a), q[|a.entry.target|..])
  {
    hide T2, T4, T5, Job.Leave, Job.Judge, Regrown, Crossed;
    StageFour(job);
    StageFive(job, limits);
    if q in T4(job) && q !in T5(job, limits) && T4(job)[q] != Dir {
      var pe := TakenIsDropped(job, limits, q);
      assert Occupied(job, q);
    }
    if pe :| pe in job.prev && pe.target == q && job.Leave(pe).Doomed? && Regrown(job, pe) {
      RemoveIsListed(job, job.prev, pe);
      RemovedIsGone(job, limits, pe);
    }
  }

  lemma AsideIsUntouched(job: Job, b: BackupAction, q: Path)
    requires Orderly(job) && b in job.Backups(job.next) && b.aside <= q
    ensures !Touched(PlantActions(job), q)
  {
    BackupIs(job, b);
    forall a | a in PlantActions(job) ensures Plants(a) && !(a.entry.target <= q) && !(q < a.entry.target) {
      PlantIsOf(job, a);
      if a.entry.target <= q { AsideOff(job, b.entry, a.entry, q); }
    }
  }

  lemma AsideOff(job: Job, e: Entry, f: Entry, q: Path)
    requires Orderly(job) && e in job.next && f in job.next
    requires WithSuffix(e.target, job.opts.Suffix()) <= q
    ensures !(f.target <= q)
  {
    var x := WithSuffix(e.target, job.opts.Suffix());
    if f.target <= q {
      Comparable(x, f.target, q);
      AboveParent(f.target, x);
      PrefixFreeOn(job.next, f, e);
    }
  }

  lemma AsideIsNotTaken(job: Job, limits: seq<nat>, b: BackupAction, q: Path)
    requires Steady(job) && |limits| == |job.Removes(job.prev)| && b in job.Backups(job.next) && b.aside <= q
    requires q in T4(job) && T4(job)[q] != Dir
    ensures q in T5(job, limits)
  {
    hide T2, T4, T5, Job.Leave, Job.Judge;
    BackupIs(job, b);
    if q !in T5(job, limits) {
      var pe := TakenIsDropped(job, limits, q);
      if e :| Crosses(job, e, pe) { AsideOff(job, b.entry, e, q); }
    }
  }

  lemma AsideLeafBefore(job: Job, b: BackupAction, q: Path)
    requires Steady(job) && b in job.Backups(job.next) && b.aside <= q
    ensures Leaf(T4(job), q) == Leaf(job.view.tree, Rebase(q, b.aside, b.entry.target))
  {
    hide T2, T4;
    StageTwo(job);
    StageFour(job);
    AsideIsUntouched(job, b, q);
    BackupIs(job, b);
    RebaseBack(q, b.aside, b.entry.target);
    NotPreRemovedUnder(job, b.entry, Rebase(q, b.aside, b.entry.target));
  }

  lemma AsideLeaf(job: Job, limits: seq<nat>, b: BackupAction, q: Path)
    requires Steady(job) && |limits| == |job.Removes(job.prev)|
    requires b in job.Backups(job.next) && b.aside <= q
    ensures Leaf(T5(job, limits), q) == Leaf(job.view.tree, Rebase(q, b.aside, b.entry.target))
  {
    hide T4, T5, Steady;
    StageFive(job, limits);
    ShrunkIsPart(T4(job), T5(job, limits), job.Removes(job.prev));
    AsideLeafBefore(job, b, q);
    if q in T4(job) && q !in T5(job, limits) && T4(job)[q] != Dir { AsideIsNotTaken(job, limits, b, q); }
  }

  /** Before stale removal, a node no placement and no backup covers is as it was, unless pre-removed. */
  lemma OtherLeafBefore(job: Job, q: Path)
    requires Steady(job) && !Occupied(job, q) && !Renamed(job.Backups(job.next), q)
    ensures Leaf(T4(job), q) == if q in At(job.PreRemoves(job.next)) then None else Leaf(job.view.tree, q)
  {
    hide T2, T4, T5;
    StageTwo(job);
    StageFour(job);
    if Touched(PlantActions(job), q) {
      var a :| a in PlantActions(job) && !a.PreRmDir? && (a.entry.target <= q || q < a.entry.target);
      PlantIsOf(job, a);
      TargetIsReady(job, a.entry);
      WayLeaf(T2(job), a.entry.target, q);
    }
    assert Leaf(T2(job), q) == Leaf(T1(job), q);
  }

  lemma CrossedIsOccupied(job: Job, pe: Entry)
    requires Steady(job) && Crossed(job, pe)
    ensures Occupied(job, pe.target)
  {
    hide T2, T4, T5, Job.Judge, Plantable;
    var e :| Crosses(job, e, pe);
    CrosserIsPlanted(job, e, pe);
    var a := PlantIsListed(job, e);
    assert a.entry.target <= pe.target;
  }

  lemma OtherLeaf(job: Job, limits: seq<nat>, q: Path)
    requires Steady(job) && |limits| == |job.Removes(job.prev)|
    requires !Occupied(job, q) && !Renamed(job.Backups(job.next), q)
    ensures Leaf(T5(job, limits), q) ==
            if q in At(job.PreRemoves(job.next)) || Dropped(job, q) then None else Leaf(job.view.tree, q)
  {
    hide T2, T4, T5;
    StageFive(job, limits);
    OtherLeafBefore(job, q);
    if q in T4(job) && q !in T5(job, limits) && T4(job)[q] != Dir { var pe := TakenIsDropped(job, limits, q); }
    if Dropped(job, q) && q !in At(job.PreRemoves(job.next)) {
      var pe :| pe in job.prev && pe.target == q && q !in job.NextBy() && pe.how != Copy && Live(job.view.tree, pe);
      DroppedIsDoomed(job, pe);
      if Crossed(job, pe) { CrossedIsOccupied(job, pe); }
      RemovedIsGone(job, limits, pe);
    }
  }

  /** Every link and file of the final tree: placements at their targets but for dropped links that came
      back with a copy, backed-up content at its aside, dropped links gone, everything else where and as
      it was. */
  ghost predicate LeavesSettled(job: Job, u: Tree) {
    PlantsSettled(job, u) && AsidesSettled(job, u) && RestSettled(job, u)
  }

  ghost predicate PlantsSettled(job: Job, u: Tree) {
    forall a, q :: a in PlantActions(job) && Plants(a) && a.entry.target <= q ==>
      Leaf(u, q) == if Uprooted(job, q) then None else Leaf(Crop(job.view.world, a), q[|a.entry.target|..])
  }

  ghost predicate AsidesSettled(job: Job, u: Tree) {
    forall b, q :: b in job.Backups(job.next) && b.aside <= q ==>
      Leaf(u, q) == Leaf(job.view.tree, Rebase(q, b.aside, b.entry.target))
  }

  ghost predicate RestSettled(job: Job, u: Tree) {
    forall q :: !Occupied(job, q) && !Renamed(job.Backups(job.next), q) ==>
      Leaf(u, q) == if q in At(job.PreRemoves(job.next)) || Dropped(job, q) then None else Leaf(job.view.tree, q)
  }

  /** Every directory of the final tree was there, leads to a target, or came with a copy or a backup. */
  ghost predicate DirsAccountedFor(job: Job, u: Tree) {
    forall q :: q in u && u[q] == Dir ==>
      || (q in job.view.tree && job.view.tree[q] == Dir)
      || (exists e :: e in job.next && (q < e.target || e.target <= q))
      || (exists b :: b in job.Backups(job.next) && b.aside <= q)
  }

  /** A directory that was there is still there unless it was migrated, backed up, or emptied by the
      removal of a dropped link. */
  ghost predicate DirsKept(job: Job, u: Tree) {
    forall q :: q in job.view.tree && job.view.tree[q] == Dir ==>
      || (q in u && u[q] == Dir)
      || q in At(job.PreRemoves(job.next))
      || (exists b :: b in job.Backups(job.next) && b.entry.target <= q)
      || (exists pe :: pe in job.prev && pe.target !in job.NextBy() && q < pe.target && Dropped(job, pe.target))
  }

  lemma DirIsMidway(job: Job, q: Path)
    requires Orderly(job) && q in job.view.tree && job.view.tree[q] == Dir
    requires q !in At(job.PreRemoves(job.next))
    requires forall b :: b in job.Backups(job.next) ==> !(b.entry.target <= q)
    ensures q in T2(job) && T2(job)[q] == Dir
  {
    hide T2, T4, T5;
    StageTwo(job);
    forall b | b in job.Backups(job.next) ensures !(b.aside <= q) { NotUnderAside(job, b, q); }
    assert !Renamed(job.Backups(job.next), q);
  }

  lemma DirNotPlanted(job: Job, q: Path, a: Action)
    requires Orderly(job) && a in PlantActions(job) && q in T2(job) && T2(job)[q] == Dir
    ensures Plants(a) && !(a.entry.target <= q)
  {
    hide T2, T4, T5, Job.Judge, Plantable;
    PlantIsOf(job, a);
    TargetIsReady(job, a.entry);
    StageTwo(job);
    if a.entry.target <= q && a.entry.target != q { AncestorsAreDirs(T2(job), q, a.entry.target); }
  }

  lemma DirBefore(job: Job, q: Path)
    requires Steady(job) && q in job.view.tree && job.view.tree[q] == Dir
    requires q !in At(job.PreRemoves(job.next))
    requires forall b :: b in job.Backups(job.next) ==> !(b.entry.target <= q)
    ensures q in T4(job) && T4(job)[q] == Dir
  {
    hide T2, T4, T5, Grown, Shrunk, Job.Judge;
    DirIsMidway(job, q);
    StageFour(job);
    if Touched(PlantActions(job), q) {
      var a :| a in PlantActions(job) && !a.PreRmDir? && (a.entry.target <= q || q < a.entry.target);
      DirNotPlanted(job, q, a);
      GrownAbove(job.view.world, T2(job), T4(job), PlantActions(job), a, q);
    } else {
      GrownElsewhere(job.view.world, T2(job), T4(job), PlantActions(job), q);
    }
  }

  /** Where the way to a target, or a place to put something aside, may be made. */
  ghost predicate DirMayCome(job: Job, q: Path) {
    || (exists e :: e in job.next && (q < e.target || e.target <= q))
    || (exists b :: b in job.Backups(job.next) && b.aside <= q)
  }

  lemma DirAtTwo(job: Job, q: Path)
    requires Steady(job) && q in T2(job) && T2(job)[q] == Dir
    ensures (q in job.view.tree && job.view.tree[q] == Dir) || DirMayCome(job, q)
  {
    hide T2;
    StageTwo(job);
    if Renamed(job.Backups(job.next), q) {
      var b :| b in job.Backups(job.next) && (b.entry.target <= q || b.aside <= q);
    }
  }

  lemma DirAtFour(job: Job, q: Path)
    requires Steady(job) && q in T4(job) && T4(job)[q] == Dir
    ensures (q in T2(job) && T2(job)[q] == Dir) || DirMayCome(job, q)
  {
    hide T2, T4;
    StageFour(job);
    if Touched(PlantActions(job), q) {
      var a :| a in PlantActions(job) && !a.PreRmDir? && (a.entry.target <= q || q < a.entry.target);
      PlantIsOf(job, a);
    }
  }

  lemma DirAfter(job: Job, limits: seq<nat>, q: Path)
    requires Steady(job) && |limits| == |job.Removes(job.prev)| && q in T5(job, limits) && T5(job, limits)[q] == Dir
    ensures (q in job.view.tree && job.view.tree[q] == Dir) || DirMayCome(job, q)
  {
    hide T2, T4, T5, Steady, DirMayCome;
    StageFive(job, limits);
    ShrunkIsPart(T4(job), T5(job, limits), job.Removes(job.prev));
    DirAtFour(job, q);
    if !DirMayCome(job, q) { DirAtTwo(job, q); }
  }

  lemma PlantsSettle(job: Job, limits: seq<nat>)
    requires Steady(job) && |limits| == |job.Removes(job.prev)|
    ensures PlantsSettled(job, T5(job, limits))
  {
    hide T5, Uprooted, Steady, Leaf, Crop, PlantActions;
    forall a, q | a in PlantActions(job) && Plants(a) && a.entry.target <= q
      ensures Leaf(T5(job, limits), q)
              == if Uprooted(job, q) then None else Leaf(Crop(job.view.world, a), q[|a.entry.target|..])
    {
      PlantedLeaf(job, limits, a, q);
    }
  }

  lemma Settles(job: Job, limits: seq<nat>)
    requires Steady(job) && |limits| == |job.Removes(job.prev)|
    ensures LeavesSettled(job, T5(job, limits))
  {
    hide T5, Occupied, Steady, Dropped, Leaf, Renamed, At, PlantsSettled;
    PlantsSettle(job, limits);
    forall b, q | b in job.Backups(job.next) && b.aside <= q
      ensures Leaf(T5(job, limits), q) == Leaf(job.view.tree, Rebase(q, b.aside, b.entry.target))
    {
      AsideLeaf(job, limits, b, q);
    }
    forall q | !Occupied(job, q) && !Renamed(job.Backups(job.next), q)
      ensures Leaf(T5(job, limits), q) ==
              if q in At(job.PreRemoves(job.next)) || Dropped(job, q) then None else Leaf(job.view.tree, q)
    {
      OtherLeaf(job, limits, q);
    }
  }

  lemma DirStays(job: Job, limits: seq<nat>, q: Path)
    requires Steady(job) && |limits| == |job.Removes(job.prev)|
    requires q in job.view.tree && job.view.tree[q] == Dir && q !in At(job.PreRemoves(job.next))
    requires forall b :: b in job.Backups(job.next) ==> !(b.entry.target <= q)
    ensures || (q in T5(job, limits) && T5(job, limits)[q] == Dir)
            || (exists pe :: pe in job.prev && pe.target !in job.NextBy() && q < pe.target && Dropped(job, pe.target))
  {
    hide T2, T4, T5, Dropped;
    DirBefore(job, q);
    if q in T5(job, limits) {
      StageFive(job, limits);
    } else {
      hide Steady, Job.Judge;
      var p := PrunedIsAbove(job, limits, q);
    }
  }

  lemma SettlesDirs(job: Job, limits: seq<nat>)
    requires Steady(job) && |limits| == |job.Removes(job.prev)|
    ensures DirsAccountedFor(job, T5(job, limits)) && DirsKept(job, T5(job, limits))
  {
    hide T2, T4, T5, Dropped, Steady, Job.Judge, At;
    var u := T5(job, limits);
    forall q | q in u && u[q] == Dir
      ensures || (q in job.view.tree && job.view.tree[q] == Dir)
              || (exists e :: e in job.next && (q < e.target || e.target <= q))
              || (exists b :: b in job.Backups(job.next) && b.aside <= q)
    {
      DirAfter(job, limits, q);
    }
    forall q | q in job.view.tree && job.view.tree[q] == Dir
      && q !in At(job.PreRemoves(job.next))
      && !(exists b :: b in job.Backups(job.next) && b.entry.target <= q)
      ensures || (q in u && u[q] == Dir)
              || (exists pe :: pe in job.prev && pe.target !in job.NextBy() && q < pe.target && Dropped(job, pe.target))
    {
      DirStays(job, limits, q);
    }
  }
}
