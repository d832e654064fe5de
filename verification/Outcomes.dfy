/** What Apply promises about the tree it leaves: convergence, idempotence, and no file lost. */
module Outcomes {
  import opened Paths
  import opened Trees
  import opened Manifests
  import opened Planner
  import opened Program
  import opened Runs
  import opened Migrations
  import opened PlanFacts
  import opened Stages
  import opened Converge
  import opened Settle
  import opened Atomic

  /** The entry is in place: a symlink points where it should, a copy exists with its source's kind. */
  predicate InPlace(w: World, u: Tree, e: Entry) {
    match e.how
    case Symlink => e.target in u && u[e.target] == Link(LinkDest(e))
    case Copy =>
      && e.target in u && w.probe(LinkDest(e)).Found?
      && (w.probe(LinkDest(e)).node.Dir? <==> u[e.target].Dir?)
    case OtherMethod => false
  }

  lemma CopyIsNotPruned(job: Job, limits: seq<nat>, e: Entry)
    requires Good(job) && |limits| == |job.Removes(job.prev)|
    requires e in job.next && e.how == Copy && e.target in T4(job) && T4(job)[e.target] == Dir
    ensures e.target in T5(job, limits) && T5(job, limits)[e.target] == Dir
  {
    hide T2, T4, T5;
    StageFive(job, limits);
    if e.target !in T5(job, limits) {
      var p := PrunedIsAbove(job, limits, e.target);
    }
  }

  lemma CopiedDirStands(job: Job, limits: seq<nat>, a: Action)
    requires Steady(job) && |limits| == |job.Removes(job.prev)| && a in PlantActions(job) && a.DoCopy?
    requires [] in Crop(job.view.world, a) && Crop(job.view.world, a)[[]] == Dir
    ensures a.entry.target in T4(job) && T4(job)[a.entry.target] == Dir
  {
    hide T2, T4, T5;
    assert a.entry.target <= a.entry.target && a.entry.target[|a.entry.target|..] == [];
    StageFour(job);
  }

  lemma SourceRoot(job: Job, a: Action)
    requires Steady(job) && a in PlantActions(job) && a.DoCopy?
    ensures a.entry in job.next && a.entry.how == Copy && job.view.world.probe(LinkDest(a.entry)).Found?
    ensures [] in Crop(job.view.world, a)
    ensures Crop(job.view.world, a)[[]] == job.view.world.probe(LinkDest(a.entry)).node
  {
    PlantIsOf(job, a);
  }

  lemma PlantedCopyIsInPlace(job: Job, limits: seq<nat>, a: Action)
    requires Good(job) && |limits| == |job.Removes(job.prev)| && a in PlantActions(job) && a.DoCopy?
    ensures InPlace(job.view.world, T5(job, limits), a.entry)
  {
    hide T2, T4, T5;
    SourceRoot(job, a);
    PlantedRoot(job, limits, a);
    if Crop(job.view.world, a)[[]] == Dir {
      CopiedDirStands(job, limits, a);
      CopyIsNotPruned(job, limits, a.entry);
    }
  }

  lemma TargetIsNotUprooted(job: Job, e: Entry)
    requires e in job.next
    ensures !Uprooted(job, e.target)
  {
    InNextBy(job, e);
  }

  lemma PlantedRoot(job: Job, limits: seq<nat>, a: Action)
    requires Steady(job) && |limits| == |job.Removes(job.prev)| && a in PlantActions(job) && Plants(a)
    ensures Leaf(T5(job, limits), a.entry.target) == Leaf(Crop(job.view.world, a), [])
  {
    hide T2, T4, T5, Uprooted, Crop;
    assert a.entry.target <= a.entry.target && a.entry.target[|a.entry.target|..] == [];
    PlantIsOf(job, a);
    TargetIsNotUprooted(job, a.entry);
    PlantedLeaf(job, limits, a, a.entry.target);
  }

  lemma PlantedIsInPlace(job: Job, limits: seq<nat>, e: Entry)
    requires Good(job) && |limits| == |job.Removes(job.prev)| && e in job.next && Plantable(job, e)
    ensures InPlace(job.view.world, T5(job, limits), e)
  {
    hide T2, T4, T5;
    var a := PlantIsListed(job, e);
    PlantIsOf(job, a);
    if e.how == Copy { PlantedCopyIsInPlace(job, limits, a); } else { PlantedRoot(job, limits, a); }
  }

  lemma KeptIsElsewhere(job: Job, e: Entry)
    requires Steady(job) && e in job.next && (job.Judge(e).KeptCopy? || job.Judge(e).ForeignCopy?)
    ensures e.target !in At(job.PreRemoves(job.next)) && !Renamed(job.Backups(job.next), e.target)
    ensures !Occupied(job, e.target) && !Dropped(job, e.target)
  {
    hide T2, T4, T5;
    NotPreRemoved(job, e);
    WayNotRenamed(job, e, e.target);
    InNextBy(job, e);
    forall a | a in PlantActions(job) ensures Plants(a) && !(a.entry.target <= e.target) {
      PlantIsOf(job, a);
      if a.entry.target <= e.target { PrefixFreeOn(job.next, a.entry, e); }
    }
  }

  lemma KeptHasItsKind(job: Job, u: Tree, e: Entry)
    requires job.Valid() && (job.Judge(e).KeptCopy? || job.Judge(e).ForeignCopy?)
    requires e.target in job.view.tree ==> e.target in u && u[e.target] == job.view.tree[e.target]
    ensures InPlace(job.view.world, u, e)
  {
    JudgeMeans(job, e);
  }

  lemma KeptIsThere(job: Job, e: Entry)
    requires job.Valid() && (job.Judge(e).KeptCopy? || job.Judge(e).ForeignCopy?)
    ensures e.how == Copy && e.target in job.view.tree
  {
    JudgeMeans(job, e);
  }

  lemma KeptIsUnchanged(job: Job, limits: seq<nat>, e: Entry)
    requires Good(job) && |limits| == |job.Removes(job.prev)| && e in job.next
    requires job.Judge(e).KeptCopy? || job.Judge(e).ForeignCopy?
    requires e.how == Copy && e.target in job.view.tree
    ensures e.target in T5(job, limits) && T5(job, limits)[e.target] == job.view.tree[e.target]
  {
    hide T2, T4, T5, Occupied, Dropped, At, Job.Judge;
    KeptIsElsewhere(job, e);
    if job.view.tree[e.target] == Dir {
      DirBefore(job, e.target);
      CopyIsNotPruned(job, limits, e);
    } else {
      OtherLeaf(job, limits, e.target);
    }
  }

  lemma KeptIsInPlace(job: Job, limits: seq<nat>, e: Entry)
    requires Good(job) && |limits| == |job.Removes(job.prev)| && e in job.next
    requires job.Judge(e).KeptCopy? || job.Judge(e).ForeignCopy?
    ensures InPlace(job.view.world, T5(job, limits), e)
  {
    hide T2, T4, T5, Job.Judge, InPlace;
    KeptIsThere(job, e);
    KeptIsUnchanged(job, limits, e);
    KeptHasItsKind(job, T5(job, limits), e);
  }

  lemma EntryIsInPlace(job: Job, limits: seq<nat>, e: Entry)
    requires Good(job) && |limits| == |job.Removes(job.prev)| && e in job.next
    ensures InPlace(job.view.world, T5(job, limits), e)
  {
    hide T2, T4, T5;
    JudgeMeans(job, e);
    if job.Judge(e).Clash? { ConflictIsListed(job, job.next, e); }
    if Plantable(job, e) { PlantedIsInPlace(job, limits, e); } else { KeptIsInPlace(job, limits, e); }
  }

  lemma LinkHasNoChild(w: World, a: Action, q: Path)
    requires a.DoPlace? && a.entry.target < q
    ensures Leaf(Crop(w, a), q[|a.entry.target|..]) == None
  {
    assert |q[|a.entry.target|..]| > 0;
  }

  /** A copy is planted only where nothing is beneath, or what is beneath goes aside with the target. */
  lemma CopyCoversNothing(job: Job, e: Entry, pe: Entry)
    requires Steady(job) && e in job.next && e.how == Copy && Plantable(job, e) && !Crossed(job, pe)
    requires pe in job.prev && pe.target !in job.NextBy() && pe.target in job.view.tree
    ensures !(e.target < pe.target)
  {
    assert !Crosses(job, e, pe);
    JudgeMeans(job, e);
    if e.target < pe.target { AncestorsAreDirs(job.view.tree, pe.target, e.target); }
  }

  /** What lies beneath a copy's target that goes aside is not taken off the remove side. */
  lemma CrossedIsUnmarked(job: Job, e: Entry, pe: Entry)
    requires Orderly(job) && Crosses(job, e, pe) && pe.target !in job.NextBy()
    ensures pe.target !in job.Marks(job.next)
  {
    if pe.target in job.Marks(job.next) {
      hide Job.Marks, Job.PreRemoves, At;
      MarkedIsPreRemoved(job, job.next, pe.target);
      NotPreRemovedUnder(job, e, pe.target);
      var f :| f in job.next && Sweeps(job, f) && f.target <= pe.target;
      OnOneLine(job.next, e, f, pe.target);
      JudgeMeans(job, e);
    }
  }

  lemma OnOneLine(next: Manifest, e: Entry, f: Entry, q: Path)
    requires PrefixFree(next) && e in next && f in next && e.target <= q && f.target <= q
    ensures e == f
  {
    Comparable(e.target, f.target, q);
    if e.target <= f.target { PrefixFreeOn(next, e, f); } else { PrefixFreeOn(next, f, e); }
  }

  /** What goes aside beneath a copy's target is planned for removal all the same. */
  lemma CrossedIsDoomed(job: Job, pe: Entry)
    requires Orderly(job) && Crossed(job, pe) && Live(job.view.tree, pe)
    requires pe in job.prev && pe.target !in job.NextBy() && pe.how != Copy
    ensures Unlink(pe) in job.Removes(job.prev)
  {
    var e :| Crosses(job, e, pe);
    CrossedIsUnmarked(job, e, pe);
    LiveIsDoomed(job, pe);
    hide *;
    RemoveIsListed(job, job.prev, pe);
  }

  lemma LiveIsDoomed(job: Job, pe: Entry)
    requires Live(job.view.tree, pe) && pe.how != Copy && pe.target !in job.NextBy() && pe.target !in job.Marks(job.next)
    ensures job.Leave(pe).Doomed?
  {
    hide Job.Judge, Job.Marks;
  }

  lemma LinkCoversNothing(job: Job, limits: seq<nat>, q: Path, a: Action)
    requires Steady(job) && |limits| == |job.Removes(job.prev)|
    requires a in PlantActions(job) && a.DoPlace? && Leaf(T5(job, limits), q) != None
    ensures !(a.entry.target < q)
  {
    hide T2, T4, T5;
    if a.entry.target < q {
      PlantedLeaf(job, limits, a, q);
      LinkHasNoChild(job.view.world, a, q);
    }
  }

  lemma DroppedIsApart(job: Job, limits: seq<nat>, pe: Entry, a: Action)
    requires Steady(job) && !Crossed(job, pe) && |limits| == |job.Removes(job.prev)| && pe in job.prev && pe.target !in job.NextBy()
    requires pe.target in job.view.tree && Leaf(T5(job, limits), pe.target) != None && a in PlantActions(job)
    ensures Plants(a) && !(a.entry.target <= pe.target)
  {
    hide T2, T4, T5;
    PlantIsOf(job, a);
    InNextBy(job, a.entry);
    if a.entry.target <= pe.target {
      SameOrAbove(a.entry.target, pe.target);
      if a.DoPlace? { LinkCoversNothing(job, limits, pe.target, a); } else { CopyCoversNothing(job, a.entry, pe); }
    }
  }

  lemma DroppedIsNotPlanned(job: Job, limits: seq<nat>, pe: Entry)
    requires Steady(job) && !Crossed(job, pe) && |limits| == |job.Removes(job.prev)|
    requires pe in job.prev && pe.target !in job.NextBy()
    requires pe.target in job.view.tree && Leaf(T5(job, limits), pe.target) != None
    ensures forall a :: a in PlantActions(job) ==> Plants(a) && !(a.entry.target <= pe.target)
  {
    hide T2, T4, T5;
    forall a | a in PlantActions(job) ensures Plants(a) && !(a.entry.target <= pe.target) {
      DroppedIsApart(job, limits, pe, a);
    }
  }

  lemma DroppedIsGone(job: Job, limits: seq<nat>, pe: Entry)
    requires Steady(job) && |limits| == |job.Removes(job.prev)|
    requires pe in job.prev && pe.target !in job.NextBy() && pe.how != Copy && Live(job.view.tree, pe)
    ensures !Live(T5(job, limits), pe)
  {
    hide T2, T4, T5, Crossed, Job.Judge;
    var q := pe.target;
    if Unlink(pe) in job.Removes(job.prev) {
      RemovedIsGone(job, limits, pe);
    } else if Leaf(T5(job, limits), q) != None {
      if Crossed(job, pe) { CrossedIsDoomed(job, pe); }
      DroppedIsNotPlanned(job, limits, pe);
      forall b | b in job.Backups(job.next) ensures !(b.entry.target <= q) && !(b.aside <= q) {
        NotUnderAside(job, b, q);
        BackedUpIsPlanted(job, b);
      }
      assert !Occupied(job, q) && Dropped(job, q);
      OtherLeaf(job, limits, q);
    }
  }

  lemma BackedUpIsPlanted(job: Job, b: BackupAction)
    requires job.Valid() && b in job.Backups(job.next)
    ensures exists a :: a in PlantActions(job) && Plants(a) && a.entry == b.entry
  {
    BackupIs(job, b);
    var a := PlantIsListed(job, b.entry);
  }

  /** Convergence. A conflict-free run in which no call fails goes through; every entry of next is then
      in place, every dropped link that was as recorded is gone, and every other node is accounted for. */
  lemma Converges(job: Job, limits: seq<nat>)
    requires Good(job) && |limits| == |job.Removes(job.prev)|
    ensures RunAll(job.view.world, job.view.tree, Schedule(job, false, limits)).done
    ensures var u := End(job.view.world, job.view.tree, Schedule(job, false, limits));
            && ValidTree(u)
            && (forall e :: e in job.next ==> InPlace(job.view.world, u, e))
            && (forall pe :: pe in job.prev && pe.target !in job.NextBy() && pe.how != Copy && Live(job.view.tree, pe) ==>
                  !Live(u, pe))
            && LeavesSettled(job, u) && DirsAccountedFor(job, u) && DirsKept(job, u)
  {
    hide T2, T4, T5;
    StagesChain(job, limits);
    StageFive(job, limits);
    Settles(job, limits);
    SettlesDirs(job, limits);
    forall e | e in job.next ensures InPlace(job.view.world, T5(job, limits), e) { EntryIsInPlace(job, limits, e); }
    forall pe | pe in job.prev && pe.target !in job.NextBy() && pe.how != Copy && Live(job.view.tree, pe)
      ensures !Live(T5(job, limits), pe)
    {
      DroppedIsGone(job, limits, pe);
    }
  }

  // Idempotence.

  lemma {:induction false} DirsAreNoLink(job: Job, target: Path, k: nat)
    requires forall j :: k <= j < |target| ==> target[..j] in job.view.tree && job.view.tree[target[..j]] == Dir
    ensures job.AncestorSymlink(target, k) == NoLink
    decreases |target| - k
  {
    if k < |target| { DirsAreNoLink(job, target, k + 1); }
  }

  lemma PrefixFreeIsDistinct(m: Manifest)
    requires PrefixFree(m)
    ensures Distinct(m)
  {
  }

  /** On a tree that holds what next wants, the entry is judged to be there already. */
  lemma InPlaceIsKept(next: Manifest, u: Tree, w: World, opts: Options, e: Entry)
    requires ValidTree(u) && ValidWorld(w) && PrefixFree(next) && e in next && InPlace(w, u, e)
    ensures Job(next, next, View(u, w), opts).Judge(e) == if e.how == Copy then KeptCopy else Relinked(true)
  {
    var job := Job(next, next, View(u, w), opts);
    forall j | 1 <= j < |e.target| ensures e.target[..j] in u && u[e.target[..j]] == Dir {
      AncestorsAreDirs(u, e.target, e.target[..j]);
    }
    DirsAreNoLink(job, e.target, 1);
    PrefixFreeIsDistinct(next);
    ByTargetIsExact(next, e);
  }

  function Replaces(m: Manifest): seq<PlaceAction> {
    if m == [] then []
    else Replaces(m[..|m| - 1])
         + (if m[|m| - 1].how == Copy then [] else [PlaceAction(m[|m| - 1], PlaceReplace)])
  }

  lemma {:induction false} OnlyReplaces(job: Job, m: Manifest)
    requires forall e :: e in m ==> job.Judge(e) == (if e.how == Copy then KeptCopy else Relinked(true)) && e.how != OtherMethod
    ensures job.Places(m) == Replaces(m) && job.Copies(m) == [] && job.Backups(m) == [] && job.Conflicts(m) == []
    ensures job.PreRemoves(m) == [] && job.Warnings(m) == [] && job.Marks(m) == {}
  {
    if m != [] {
      assert m[|m| - 1] in m;
      OnlyReplaces(job, m[..|m| - 1]);
    }
  }

  lemma {:induction false} NothingLeft(job: Job, m: Manifest)
    requires forall e :: e in m ==> e.target in job.NextBy()
    ensures job.Removes(m) == [] && job.LeftoverWarnings(m) == []
  {
    if m != [] {
      assert m[|m| - 1] in m;
      NothingLeft(job, m[..|m| - 1]);
    }
  }

  lemma NoneObscured(job: Job)
    requires forall pe :: pe in job.prev ==> pe.target in job.NextBy()
    ensures forall pe :: pe in job.prev ==> !job.Leave(pe).Obscured?
  {
  }

  lemma PlansOnlyReplaces(job: Job)
    requires job.prev == job.next
    requires forall e :: e in job.next ==>
               job.Judge(e) == (if e.how == Copy then KeptCopy else Relinked(true)) && e.how != OtherMethod
    ensures job.Compute() == Planned(Plan(Replaces(job.next), [], [], [], [], [], []))
  {
    hide Job.Judge, Job.Leave;
    forall e | e in job.next ensures e.target in job.NextBy() { InNextBy(job, e); }
    OnlyReplaces(job, job.next);
    NothingLeft(job, job.next);
    NoneObscured(job);
  }

  /** Planning next against itself on a tree where all of next is in place finds only links to re-link
      to where they already point. */
  lemma InPlaceNeedsNothing(next: Manifest, u: Tree, w: World, opts: Options)
    requires ValidTree(u) && ValidWorld(w) && PrefixFree(next) && forall e :: e in next ==> InPlace(w, u, e)
    ensures Job(next, next, View(u, w), opts).Compute() == Planned(Plan(Replaces(next), [], [], [], [], [], []))
  {
    hide Job.Judge, Job.Compute, PrefixFree, ValidTree, ValidWorld;
    var job := Job(next, next, View(u, w), opts);
    forall e | e in next ensures job.Judge(e) == (if e.how == Copy then KeptCopy else Relinked(true)) && e.how != OtherMethod {
      InPlaceIsKept(next, u, w, opts, e);
    }
    PlansOnlyReplaces(job);
  }

  /** Idempotence: after a successful run the same manifest plans nothing but re-links in place. */
  lemma SecondRunIsNoOp(job: Job, limits: seq<nat>, opts: Options)
    requires Good(job) && |limits| == |job.Removes(job.prev)|
    ensures var u := End(job.view.world, job.view.tree, Schedule(job, false, limits));
            && Job(job.next, job.next, View(u, job.view.world), opts).Compute()
               == Planned(Plan(Replaces(job.next), [], [], [], [], [], []))
            && (forall a :: a in Replaces(job.next) ==> a.entry.target in u && u[a.entry.target] == Link(LinkDest(a.entry)))
  {
    var u := End(job.view.world, job.view.tree, Schedule(job, false, limits));
    Converges(job, limits);
    InPlaceNeedsNothing(job.next, u, job.view.world, opts);
    forall a | a in Replaces(job.next) ensures a.entry.target in u && u[a.entry.target] == Link(LinkDest(a.entry)) {
      ReplacesAreLinks(job.next, a);
      assert InPlace(job.view.world, u, a.entry);
    }
  }

  lemma {:induction false} ReplacesAreLinks(m: Manifest, a: PlaceAction)
    requires a in Replaces(m)
    ensures a.entry in m && a.entry.how != Copy && a.kind == PlaceReplace
  {
    if a in Replaces(m[..|m| - 1]) { ReplacesAreLinks(m[..|m| - 1], a); }
  }
}
