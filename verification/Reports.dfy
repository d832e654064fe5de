/** What a run reports, what a dry run predicts, and what a failed run says it did not reach. */
module Reports {
  import opened Sequences
  import opened Paths
  import opened Trees
  import opened Manifests
  import opened Planner
  import opened Steps
  import opened Program
  import opened Runs
  import opened Migrations
  import opened PlanFacts
  import opened Stages
  import opened Converge
  import opened Settle
  import opened Atomic
  import opened Safety

  /** The operation lists of the result, in the order the writes were made. */
  datatype Report = Report(
    placed: seq<Path>,
    replaced: seq<Path>,
    copied: seq<Path>,
    recopied: seq<Path>,
    removed: seq<Path>,
    pruned: seq<Path>,
    backedUp: seq<Path>)
  {
    function Plus(r: Report): Report {
      Report(placed + r.placed, replaced + r.replaced, copied + r.copied, recopied + r.recopied,
             removed + r.removed, pruned + r.pruned, backedUp + r.backedUp)
    }

    /** The targets `fail` takes to be dealt with. */
    function Done(): set<Path> {
      (set p | p in placed) + (set p | p in replaced) + (set p | p in copied) + (set p | p in recopied)
      + (set p | p in removed) + (set p | p in backedUp)
    }
  }

  const NOTHING := Report([], [], [], [], [], [], [])

  /** What a write adds to the report: only a write that completes its action is listed. */
  function ReportOf(e: Event): Report {
    match e
    case LinkNew(p, _) => NOTHING.(placed := [p])
    case Relink(p, _) => NOTHING.(replaced := [p])
    case Graft(p, _, existed) => if existed then NOTHING.(recopied := [p]) else NOTHING.(copied := [p])
    case Drop(p, _) => NOTHING.(removed := [p])
    case RmDir(p) => NOTHING.(pruned := [p])
    case BackUp(p, _) => NOTHING.(backedUp := [p])
    case _ => NOTHING
  }

  function Reported(es: seq<Event>): Report {
    if es == [] then NOTHING else Reported(es[..|es| - 1]).Plus(ReportOf(es[|es| - 1]))
  }

  lemma PlusAssociates(a: Report, b: Report, c: Report)
    ensures a.Plus(b).Plus(c) == a.Plus(b.Plus(c))
    ensures a.Plus(NOTHING) == a && NOTHING.Plus(a) == a
  {
  }

  lemma {:induction false} ReportedConcat(a: seq<Event>, b: seq<Event>)
    ensures Reported(a + b) == Reported(a).Plus(Reported(b))
    decreases |b|
  {
    hide Report.Plus, ReportOf;
    if b == [] {
      EmptyEnd(a, b);
      PlusAssociates(Reported(a), NOTHING, NOTHING);
    } else {
      var init, e := b[..|b| - 1], b[|b| - 1];
      LastOf(b);
      SnocConcat(a, init, e);
      ButLast(a + init, e);
      ReportedConcat(a, init);
      PlusAssociates(Reported(a), Reported(init), ReportOf(e));
    }
  }

  lemma {:induction false} PlacedAre(es: seq<Event>, p: Path)
    ensures p in Reported(es).placed <==> exists e :: e in es && e.LinkNew? && e.path == p
    ensures p in Reported(es).replaced <==> exists e :: e in es && e.Relink? && e.path == p
  {
    if es != [] {
      PlacedAre(es[..|es| - 1], p);
      LastOf(es);
    }
  }

  lemma {:induction false} CopiedAre(es: seq<Event>, p: Path)
    ensures p in Reported(es).copied <==> exists e :: e in es && e.Graft? && !e.existed && e.path == p
    ensures p in Reported(es).recopied <==> exists e :: e in es && e.Graft? && e.existed && e.path == p
  {
    if es != [] {
      CopiedAre(es[..|es| - 1], p);
      LastOf(es);
    }
  }

  lemma {:induction false} RemovedAre(es: seq<Event>, p: Path)
    ensures p in Reported(es).removed <==> exists e :: e in es && e.Drop? && e.path == p
    ensures p in Reported(es).pruned <==> exists e :: e in es && e.RmDir? && e.path == p
  {
    if es != [] {
      RemovedAre(es[..|es| - 1], p);
      LastOf(es);
    }
  }

  lemma {:induction false} BackedUpAre(es: seq<Event>, p: Path)
    ensures p in Reported(es).backedUp <==> exists e :: e in es && e.BackUp? && e.path == p
  {
    if es != [] {
      BackedUpAre(es[..|es| - 1], p);
      LastOf(es);
    }
  }

  /** Which writes each list of the report tells of. */
  lemma ReportedExactly(es: seq<Event>, p: Path)
    ensures p in Reported(es).placed <==> exists e :: e in es && e.LinkNew? && e.path == p
    ensures p in Reported(es).replaced <==> exists e :: e in es && e.Relink? && e.path == p
    ensures p in Reported(es).copied <==> exists e :: e in es && e.Graft? && !e.existed && e.path == p
    ensures p in Reported(es).recopied <==> exists e :: e in es && e.Graft? && e.existed && e.path == p
    ensures p in Reported(es).removed <==> exists e :: e in es && e.Drop? && e.path == p
    ensures p in Reported(es).pruned <==> exists e :: e in es && e.RmDir? && e.path == p
    ensures p in Reported(es).backedUp <==> exists e :: e in es && e.BackUp? && e.path == p
  {
    PlacedAre(es, p);
    CopiedAre(es, p);
    RemovedAre(es, p);
    BackedUpAre(es, p);
  }

  lemma ReportedOne(e: Event)
    ensures Reported([e]) == ReportOf(e)
  {
    ButLast([], e);
    assert [] + [e] == [e];
  }

  lemma {:induction false} ParentsUnreported(t: Tree, p: Path, n: nat)
    requires n <= |p|
    ensures Reported(Parents(t, p, n)) == NOTHING
  {
    if n > 0 {
      ParentsUnreported(t, p, n - 1);
      if p[..n - 1] in t {
        EmptyEnd(Parents(t, p, n - 1), []);
      } else {
        ReportedConcat(Parents(t, p, n - 1), [MkParent(p[..n - 1])]);
        ReportedOne(MkParent(p[..n - 1]));
      }
    }
  }

  // The dry run.

  function Placing(p: PlaceAction): Report {
    if p.kind == PlaceNew then NOTHING.(placed := [p.entry.target]) else NOTHING.(replaced := [p.entry.target])
  }

  function Placings(ps: seq<PlaceAction>): Report {
    if ps == [] then NOTHING else Placings(ps[..|ps| - 1]).Plus(Placing(ps[|ps| - 1]))
  }

  function Copyings(cs: seq<CopyAction>): Report {
    if cs == [] then NOTHING
    else Copyings(cs[..|cs| - 1]).Plus(NOTHING.(copied := [cs[|cs| - 1].entry.target]))
  }

  function Removing(r: RemoveAction): Report {
    if r.Unlink? then NOTHING.(removed := [r.entry.target]) else NOTHING.(pruned := [r.dir])
  }

  function Removings(rs: seq<RemoveAction>): Report {
    if rs == [] then NOTHING else Removings(rs[..|rs| - 1]).Plus(Removing(rs[|rs| - 1]))
  }

  function Asidings(bs: seq<BackupAction>): Report {
    if bs == [] then NOTHING
    else Asidings(bs[..|bs| - 1]).Plus(NOTHING.(backedUp := [bs[|bs| - 1].entry.target]))
  }

  /** What a dry run lists, section by section. */
  function Preview(plan: Plan): Report {
    Placings(plan.place).Plus(Copyings(plan.copies)).Plus(Removings(plan.preRemove)).Plus(Removings(plan.remove))
    .Plus(Asidings(plan.backup))
  }

  lemma {:induction false} PlacingsExactly(ps: seq<PlaceAction>, p: Path)
    ensures p in Placings(ps).placed <==> exists a :: a in ps && a.kind == PlaceNew && a.entry.target == p
    ensures p in Placings(ps).replaced <==> exists a :: a in ps && a.kind != PlaceNew && a.entry.target == p
  {
    if ps != [] {
      PlacingsExactly(ps[..|ps| - 1], p);
      LastOf(ps);
    }
  }

  lemma {:induction false} CopyingsExactly(cs: seq<CopyAction>, p: Path)
    ensures p in Copyings(cs).copied <==> exists a :: a in cs && a.entry.target == p
  {
    if cs != [] {
      CopyingsExactly(cs[..|cs| - 1], p);
      LastOf(cs);
    }
  }

  lemma {:induction false} RemovingsExactly(rs: seq<RemoveAction>, p: Path)
    ensures p in Removings(rs).removed <==> exists a :: a in rs && a.Unlink? && a.entry.target == p
    ensures p in Removings(rs).pruned <==> exists a :: a in rs && a.Rmdir? && a.dir == p
  {
    if rs != [] {
      RemovingsExactly(rs[..|rs| - 1], p);
      LastOf(rs);
    }
  }

  lemma {:induction false} AsidingsExactly(bs: seq<BackupAction>, p: Path)
    ensures p in Asidings(bs).backedUp <==> exists a :: a in bs && a.entry.target == p
  {
    if bs != [] {
      AsidingsExactly(bs[..|bs| - 1], p);
      LastOf(bs);
    }
  }

  /** What each list of a dry run tells of the plan. */
  lemma PreviewExactly(plan: Plan, p: Path)
    ensures p in Preview(plan).placed <==> exists a :: a in plan.place && a.kind == PlaceNew && a.entry.target == p
    ensures p in Preview(plan).replaced <==> exists a :: a in plan.place && a.kind != PlaceNew && a.entry.target == p
    ensures p in Preview(plan).copied <==> exists a :: a in plan.copies && a.entry.target == p
    ensures p in Preview(plan).removed <==> exists a :: a in plan.preRemove + plan.remove && a.Unlink? && a.entry.target == p
    ensures p in Preview(plan).pruned <==> exists a :: a in plan.preRemove + plan.remove && a.Rmdir? && a.dir == p
    ensures p in Preview(plan).backedUp <==> exists a :: a in plan.backup && a.entry.target == p
    ensures Preview(plan).recopied == []
  {
    PlacingsExactly(plan.place, p);
    CopyingsExactly(plan.copies, p);
    RemovingsExactly(plan.preRemove, p);
    RemovingsExactly(plan.remove, p);
    AsidingsExactly(plan.backup, p);
    PlacingsOnly(plan.place);
    CopyingsOnly(plan.copies);
    RemovingsOnly(plan.preRemove);
    RemovingsOnly(plan.remove);
    AsidingsOnly(plan.backup);
    hide Placings, Copyings, Removings, Asidings;
    assert forall a :: a in plan.preRemove + plan.remove <==> a in plan.preRemove || a in plan.remove;
  }

  // Each stage of a run that goes through reports what was planned for it.

  lemma {:induction false} PreReported(rs: seq<RemoveAction>)
    ensures Reported(PreEvents(rs)) == Removings(rs)
  {
    if rs != [] {
      var init, r := rs[..|rs| - 1], rs[|rs| - 1];
      PreReported(init);
      ReportedConcat(PreEvents(init), [PreEvent(r)]);
      ReportedOne(PreEvent(r));
    }
  }

  lemma LaterReported(w: World, t: Tree, init: seq<Action>, a: Action)
    requires RunAll(w, t, init + [a]).done
    ensures RunAll(w, t, init).done && RunOne(View(End(w, t, init), w), a).done
    ensures Reported(RunAll(w, t, init + [a]).events)
            == Reported(RunAll(w, t, init).events).Plus(Reported(RunOne(View(End(w, t, init), w), a).events))
  {
    hide RunOne;
    RunAllSnoc(w, t, init, a);
    if RunAll(w, t, init).done {
      ReportedConcat(RunAll(w, t, init).events, RunOne(View(End(w, t, init), w), a).events);
    }
  }

  lemma BackupReported(v: View, b: BackupAction)
    requires RunBackup(v, b.entry, b.aside).done
    ensures Reported(RunBackup(v, b.entry, b.aside).events) == NOTHING.(backedUp := [b.entry.target])
  {
    hide Lstat, Reported;
    ReportedOne(BackUp(b.entry.target, b.aside));
  }

  lemma {:induction false} BackupsReported(w: World, t: Tree, bs: seq<BackupAction>)
    requires RunAll(w, t, BackupActions(bs)).done
    ensures Reported(RunAll(w, t, BackupActions(bs)).events) == Asidings(bs)
  {
    if bs != [] {
      hide Report.Plus, RunBackup, RunAll;
      var init, b := bs[..|bs| - 1], bs[|bs| - 1];
      LaterReported(w, t, BackupActions(init), DoBackup(b.entry, b.aside));
      BackupsReported(w, t, init);
      BackupReported(View(End(w, t, BackupActions(init)), w), b);
    }
  }

  lemma ReportedPair(parents: seq<Event>, d: Event, e: Event)
    requires Reported(parents) == NOTHING && ReportOf(d) == NOTHING
    ensures Reported(parents + [d, e]) == ReportOf(e)
  {
    hide Report.Plus, ReportOf, Reported;
    ReportedConcat(parents, [d, e]);
    ReportedConcat([d], [e]);
    ReportedOne(d);
    ReportedOne(e);
    assert [d] + [e] == [d, e];
    PlusAssociates(ReportOf(e), NOTHING, NOTHING);
  }

  lemma ReportedLast(parents: seq<Event>, e: Event)
    requires Reported(parents) == NOTHING
    ensures Reported(parents + [e]) == ReportOf(e)
  {
    hide Report.Plus, ReportOf, Reported;
    ReportedConcat(parents, [e]);
    ReportedOne(e);
    PlusAssociates(ReportOf(e), NOTHING, NOTHING);
  }

  lemma PlaceReported(v: View, p: PlaceAction)
    requires RunPlace(v, p.entry, p.kind).done
    ensures Reported(RunPlace(v, p.entry, p.kind).events) == Placing(p)
  {
    hide Reported, WayClear, Parents;
    var x, dest := p.entry.target, LinkDest(p.entry);
    var parents := Parents(v.tree, x, |x|);
    ParentsUnreported(v.tree, x, |x|);
    if p.kind == PlaceNew {
      ReportedLast(parents, LinkNew(x, dest));
    } else {
      ReportedPair(parents, Detach(x, v.tree[x].dest), Relink(x, dest));
    }
  }

  lemma CopyReported(v: View, e: Entry)
    requires RunCopy(v, e).done
    ensures Reported(RunCopy(v, e).events) == NOTHING.(copied := [e.target])
  {
    hide Reported, WayClear, Parents;
    var x := e.target;
    ParentsUnreported(v.tree, x, |x|);
    ReportedPair(Parents(v.tree, x, |x|), OpenCopy(x), Graft(x, v.world.content(LinkDest(e)), false));
  }

  lemma {:induction false} PlacesReported(w: World, t: Tree, ps: seq<PlaceAction>)
    requires RunAll(w, t, PlaceActions(ps)).done
    ensures Reported(RunAll(w, t, PlaceActions(ps)).events) == Placings(ps)
  {
    hide Report.Plus, RunPlace, Placing;
    if ps != [] {
      var init, p := ps[..|ps| - 1], ps[|ps| - 1];
      LaterReported(w, t, PlaceActions(init), DoPlace(p.entry, p.kind));
      PlacesReported(w, t, init);
      PlaceReported(View(End(w, t, PlaceActions(init)), w), p);
    }
  }

  lemma {:induction false} CopiesReported(w: World, t: Tree, cs: seq<CopyAction>)
    requires RunAll(w, t, CopyActions(cs)).done
    ensures Reported(RunAll(w, t, CopyActions(cs)).events) == Copyings(cs)
  {
    hide Report.Plus, RunCopy;
    if cs != [] {
      var init, c := cs[..|cs| - 1], cs[|cs| - 1];
      LaterReported(w, t, CopyActions(init), DoCopy(c.entry));
      CopiesReported(w, t, init);
      CopyReported(View(End(w, t, CopyActions(init)), w), c.entry);
    }
  }

  /** Only directories pruned. */
  predicate OnlyPruned(r: Report) {
    r == NOTHING.(pruned := r.pruned)
  }

  lemma {:induction false} PrunesReported(t: Tree, dir: Path, limit: nat)
    ensures OnlyPruned(Reported(Prunes(t, dir, limit)))
    decreases |dir|
  {
    var es := Prunes(t, dir, limit);
    if es != [] {
      PrunesReported(Without(t, dir), Parent(dir), limit - 1);
      ReportedConcat([RmDir(dir)], Prunes(Without(t, dir), Parent(dir), limit - 1));
      ReportedOne(RmDir(dir));
    }
  }

  /** The same but for what was pruned. */
  predicate SaveForPruned(r: Report, s: Report) {
    r == s.(pruned := r.pruned)
  }

  lemma DropReported(v: View, e: Entry, limit: nat)
    requires Live(v.tree, e)
    ensures SaveForPruned(Reported(RunDrop(v, e, limit).events), Removing(Unlink(e)))
  {
    var rest := Prunes(Without(v.tree, e.target), Parent(e.target), limit);
    ReportedConcat([Drop(e.target, LinkDest(e))], rest);
    ReportedOne(Drop(e.target, LinkDest(e)));
    PrunesReported(Without(v.tree, e.target), Parent(e.target), limit);
  }

  lemma StillLive(t: Tree, u: Tree, init: seq<RemoveAction>, e: Entry)
    requires Shrunk(t, u, init) && Live(t, e) && forall r :: r in init ==> r.At() != e.target
    ensures Live(u, e)
  {
  }

  lemma OnceSplit(init: seq<RemoveAction>, r: RemoveAction)
    requires OncePerPath(init + [r])
    ensures OncePerPath(init) && forall x :: x in init ==> x.At() != r.At()
  {
    var rs := init + [r];
    assert rs[|init|] == r && forall i :: 0 <= i < |init| ==> rs[i] == init[i];
    assert forall i :: 0 <= i < |init| ==> rs[i].At() != rs[|init|].At();
  }

  /** Each link is listed once, and none is merely seen through a symlink. */
  ghost predicate EachApart(w: World, t: Tree, rs: seq<RemoveAction>) {
    OncePerPath(rs) && forall r :: r in rs ==> r.Unlink? && Foreign(View(t, w), r.entry)
  }

  lemma ButLastApart(w: World, t: Tree, init: seq<RemoveAction>, r: RemoveAction)
    requires EachApart(w, t, init + [r])
    ensures EachApart(w, t, init) && r.Unlink? && Foreign(View(t, w), r.entry)
    ensures forall x :: x in init + [r] ==> x.Unlink? && Foreign(View(t, w), x.entry)
    ensures forall x :: x in init ==> x.Unlink? && Foreign(View(t, w), x.entry) && x.At() != r.entry.target
  {
    OnceSplit(init, r);
    assert r in init + [r] && forall x :: x in init ==> x in init + [r];
  }

  /** Of a list of removals, those whose link stands as recorded. */
  function Remaining(t: Tree, rs: seq<RemoveAction>): seq<RemoveAction> {
    if rs == [] then []
    else
      var r := rs[|rs| - 1];
      Remaining(t, rs[..|rs| - 1]) + if r.Unlink? && Live(t, r.entry) then [r] else []
  }

  lemma RemainingSnoc(t: Tree, init: seq<RemoveAction>, r: RemoveAction)
    requires r.Unlink?
    ensures Remaining(t, init + [r]) == if Live(t, r.entry) then Remaining(t, init) + [r] else Remaining(t, init)
  {
    ButLast(init, r);
  }

  /** The list of those that remain is the whole list exactly if all remain. */
  lemma {:induction false} RemainingIs(t: Tree, rs: seq<RemoveAction>)
    ensures forall r :: r in Remaining(t, rs) <==> r in rs && r.Unlink? && Live(t, r.entry)
    ensures |Remaining(t, rs)| <= |rs|
    ensures (Remaining(t, rs) == rs) <==> (forall r :: r in rs ==> r.Unlink? && Live(t, r.entry))
    ensures (|Remaining(t, rs)| == |rs|) <==> (Remaining(t, rs) == rs)
  {
    if rs != [] {
      var init, r := rs[..|rs| - 1], rs[|rs| - 1];
      LastOf(rs);
      RemainingIs(t, init);
    }
  }

  lemma DropActionsSnoc(init: seq<RemoveAction>, r: RemoveAction, limits: seq<nat>, limit: nat)
    requires |limits| == |init| && forall x :: x in init + [r] ==> x.Unlink?
    ensures forall x :: x in init ==> x.Unlink?
    ensures r.Unlink? && DropActions(init + [r], limits + [limit]) == DropActions(init, limits) + [DoDrop(r.entry, limit)]
  {
    assert r in init + [r] && forall x :: x in init ==> x in init + [r];
    ButLast(init, r);
    ButLast(limits, limit);
  }

  lemma OneMoreDrop(w: World, t: Tree, before: seq<Action>, e: Entry, limit: nat, listed: Report)
    requires RunAll(w, t, before + [DoDrop(e, limit)]).done && Live(End(w, t, before), e)
    requires SaveForPruned(Reported(RunAll(w, t, before).events), listed)
    ensures SaveForPruned(Reported(RunAll(w, t, before + [DoDrop(e, limit)]).events), listed.Plus(Removing(Unlink(e))))
  {
    hide RunAll, Reported, SaveForPruned, Report.Plus, Live, RunDrop, Removing;
    LaterReported(w, t, before, DoDrop(e, limit));
    DropReported(View(End(w, t, before), w), e, limit);
    SavePlus(Reported(RunAll(w, t, before).events), listed,
             Reported(RunDrop(View(End(w, t, before), w), e, limit).events), Removing(Unlink(e)));
  }

  lemma NoMoreDrop(w: World, t: Tree, before: seq<Action>, e: Entry, limit: nat, listed: Report)
    requires RunAll(w, t, before + [DoDrop(e, limit)]).done && !Live(End(w, t, before), e)
    requires Foreign(View(End(w, t, before), w), e)
    requires SaveForPruned(Reported(RunAll(w, t, before).events), listed)
    ensures SaveForPruned(Reported(RunAll(w, t, before + [DoDrop(e, limit)]).events), listed)
  {
    hide RunAll, SaveForPruned, Report.Plus, Live, Foreign, RunDrop;
    LaterReported(w, t, before, DoDrop(e, limit));
    DropIsDone(View(End(w, t, before), w), e, limit);
    PlusAssociates(Reported(RunAll(w, t, before).events), NOTHING, NOTHING);
  }

  lemma StillDead(t: Tree, u: Tree, init: seq<RemoveAction>, e: Entry)
    requires Shrunk(t, u, init) && !Live(t, e)
    ensures !Live(u, e)
  {
  }

  /** Stale removal of links listed once each reports, in order, exactly those that stand as recorded. */
  lemma {:induction false} DropsReported(w: World, t: Tree, rs: seq<RemoveAction>, limits: seq<nat>)
    requires ValidTree(t) && ValidWorld(w) && |limits| == |rs| && EachApart(w, t, rs)
    ensures forall r :: r in rs ==> r.Unlink?
    ensures SaveForPruned(Reported(RunAll(w, t, DropActions(rs, limits)).events), Removings(Remaining(t, rs)))
    decreases |rs|
  {
    if rs == [] {
      NoDropsReported(w, t, limits);
    } else {
      hide *;
      var n := |rs| - 1;
      var init, r := rs[..n], rs[n];
      LastOf(rs);
      LastOf(limits);
      ButLastApart(w, t, init, r);
      DropsReported(w, t, init, limits[..n]);
      DropsRun(w, t, init, limits[..n]);
      DropsRun(w, t, rs, limits);
      DropActionsSnoc(init, r, limits[..n], limits[n]);
      RemainingSnoc(t, init, r);
      var before := DropActions(init, limits[..n]);
      var u := End(w, t, before);
      if Live(t, r.entry) {
        StillLive(t, u, init, r.entry);
        OneMoreDrop(w, t, before, r.entry, limits[n], Removings(Remaining(t, init)));
        RemovingsSnoc(Remaining(t, init), r);
      } else {
        StillDead(t, u, init, r.entry);
        ShrunkIsPart(t, u, init);
        ForeignShrinks(w, t, u, r.entry);
        NoMoreDrop(w, t, before, r.entry, limits[n], Removings(Remaining(t, init)));
      }
    }
  }

  lemma RemovingsSnoc(init: seq<RemoveAction>, r: RemoveAction)
    ensures Removings(init + [r]) == Removings(init).Plus(Removing(r))
  {
    ButLast(init, r);
  }

  lemma NoDropsReported(w: World, t: Tree, limits: seq<nat>)
    requires |limits| == 0
    ensures SaveForPruned(Reported(RunAll(w, t, DropActions([], limits)).events), Removings([]))
  {
  }

  lemma SavePlus(a: Report, b: Report, c: Report, d: Report)
    requires SaveForPruned(a, b) && SaveForPruned(c, d)
    ensures SaveForPruned(a.Plus(c), b.Plus(d))
  {
  }

  lemma RemovesApart(job: Job)
    requires Steady(job)
    ensures EachApart(job.view.world, T4(job), job.Removes(job.prev))
  {
    hide Job.Judge, T1, T2, T4;
    NothingIsRemovedTwice(job);
    OnceLater(job.PreRemoves(job.next), job.Removes(job.prev));
    forall r | r in job.Removes(job.prev) ensures r.Unlink? && Foreign(View(T4(job), job.view.world), r.entry) {
      RemoveIsOf(job, job.prev, r);
      LiveAtFour(job, r.entry);
    }
  }

  /** The planned removals that are carried out: all but those of links that went aside with a copy which
      does not bring them back. */
  function Performed(job: Job): seq<RemoveAction> {
    Remaining(T4(job), job.Removes(job.prev))
  }

  /** The link of pe is to be removed, but goes aside with a copy and does not come back. */
  ghost predicate Swallowed(job: Job, pe: Entry) {
    pe in job.prev && job.Leave(pe).Doomed? && Crossed(job, pe) && !Regrown(job, pe)
  }

  ghost predicate Straight(job: Job) {
    forall pe :: !Swallowed(job, pe)
  }

  lemma StraightIsPerformed(job: Job)
    requires Steady(job)
    ensures Performed(job) == job.Removes(job.prev) <==> Straight(job)
    ensures |Performed(job)| == |job.Removes(job.prev)| <==> Straight(job)
  {
    hide Job.Judge, Job.Leave, T4, Crossed, Regrown, Live, Steady;
    RemainingIs(T4(job), job.Removes(job.prev));
    forall r | r in job.Removes(job.prev)
      ensures r.Unlink? && r.entry in job.prev && job.Leave(r.entry).Doomed?
      ensures Live(T4(job), r.entry) <==> !Crossed(job, r.entry) || Regrown(job, r.entry)
    {
      RemoveIsOf(job, job.prev, r);
      LiveAtFour(job, r.entry);
    }
    if pe :| Swallowed(job, pe) {
      RemoveIsListed(job, job.prev, pe);
      assert !Live(T4(job), Unlink(pe).entry);
    }
    if r :| r in job.Removes(job.prev) && !Live(T4(job), r.entry) { assert Swallowed(job, r.entry); }
  }

  lemma StagesReported(job: Job, limits: seq<nat>)
    requires Steady(job) && |limits| == |job.Removes(job.prev)|
    ensures Reported(PreEvents(job.PreRemoves(job.next))) == Removings(job.PreRemoves(job.next))
    ensures Reported(RunAll(job.view.world, T1(job), BackupActions(job.Backups(job.next))).events)
            == Asidings(job.Backups(job.next))
    ensures SaveForPruned(Reported(RunAll(job.view.world, T4(job), DropsOf(job, limits)).events), Removings(Performed(job)))
  {
    hide Job.Judge;
    PreReported(job.PreRemoves(job.next));
    StageTwo(job);
    BackupsReported(job.view.world, T1(job), job.Backups(job.next));
    StageFour(job);
    RemovesApart(job);
    DropsReported(job.view.world, T4(job), job.Removes(job.prev), limits);
  }

  lemma OnceLater(a: seq<RemoveAction>, b: seq<RemoveAction>)
    requires OncePerPath(a + b)
    ensures OncePerPath(b)
  {
    forall i, j | 0 <= i < j < |b| ensures b[i].At() != b[j].At() {
      assert (a + b)[|a| + i] == b[i] && (a + b)[|a| + j] == b[j];
    }
  }

  lemma PlantsReported(job: Job)
    requires Steady(job)
    ensures Reported(RunAll(job.view.world, T2(job), PlantActions(job)).events)
            == Placings(job.Places(job.next)).Plus(Copyings(job.Copies(job.next)))
  {
    hide Job.Judge, T2, Report.Plus;
    StageFour(job);
    var w, t := job.view.world, T2(job);
    var places, copies := PlaceActions(job.Places(job.next)), CopyActions(job.Copies(job.next));
    RunAllConcat(w, t, places, copies);
    var first, rest := RunAll(w, t, places), RunAll(w, End(w, t, places), copies);
    if first.done {
      ReportedConcat(first.events, rest.events);
      PlacesReported(w, t, job.Places(job.next));
      CopiesReported(w, End(w, t, places), job.Copies(job.next));
    }
  }

  /** The same lists, in the same order, and the directories foretold a prefix of those pruned. */
  predicate Foretells(preview: Report, actual: Report) {
    preview.pruned <= actual.pruned && preview.(pruned := actual.pruned) == actual
  }

  lemma Assemble(pre: Report, backup: Report, plant: Report, drop: Report, places: Report, copies: Report, drops: Report)
    requires SaveForPruned(drop, drops) && plant == places.Plus(copies)
    requires drops.pruned == []
    requires OnlyRemoval(pre) && OnlyRemoval(drops) && OnlyAside(backup) && OnlyPlace(places) && OnlyCopy(copies)
    ensures Foretells(places.Plus(copies).Plus(pre).Plus(drops).Plus(backup), pre.Plus(backup.Plus(plant)).Plus(drop))
  {
  }

  predicate OnlyRemoval(r: Report) { r == NOTHING.(removed := r.removed, pruned := r.pruned) }

  predicate OnlyAside(r: Report) { r == NOTHING.(backedUp := r.backedUp) }

  predicate OnlyPlace(r: Report) { r == NOTHING.(placed := r.placed, replaced := r.replaced) }

  predicate OnlyCopy(r: Report) { r == NOTHING.(copied := r.copied) }

  lemma {:induction false} RemovingsOnly(rs: seq<RemoveAction>)
    ensures OnlyRemoval(Removings(rs))
    ensures (forall r :: r in rs ==> r.Unlink?) ==> Removings(rs).pruned == []
  {
    if rs != [] {
      RemovingsOnly(rs[..|rs| - 1]);
      assert rs[|rs| - 1] in rs;
    }
  }

  lemma {:induction false} AsidingsOnly(bs: seq<BackupAction>)
    ensures OnlyAside(Asidings(bs))
  {
    if bs != [] { AsidingsOnly(bs[..|bs| - 1]); }
  }

  lemma {:induction false} PlacingsOnly(ps: seq<PlaceAction>)
    ensures OnlyPlace(Placings(ps))
  {
    if ps != [] { PlacingsOnly(ps[..|ps| - 1]); }
  }

  lemma {:induction false} CopyingsOnly(cs: seq<CopyAction>)
    ensures OnlyCopy(Copyings(cs))
  {
    if cs != [] { CopyingsOnly(cs[..|cs| - 1]); }
  }

  lemma ChainReported(job: Job, limits: seq<nat>)
    requires Steady(job) && |limits| == |job.Removes(job.prev)|
    ensures Reported(RunAll(job.view.world, job.view.tree, Schedule(job, false, limits)).events)
            == Reported(PreEvents(job.PreRemoves(job.next)))
               .Plus(Reported(RunAll(job.view.world, T1(job), BackupActions(job.Backups(job.next))).events)
                     .Plus(Reported(RunAll(job.view.world, T2(job), PlantActions(job)).events)))
               .Plus(Reported(RunAll(job.view.world, T4(job), DropsOf(job, limits)).events))
  {
    hide Job.Judge, T1, T2, T4, Report.Plus, Schedule, PlantActions, DropsOf, RunAll;
    var upto := ChainPrefix(job, limits);
    PreEventsRun(job);
    var y := RunAll(job.view.world, T1(job), BackupActions(job.Backups(job.next))).events;
    var z := RunAll(job.view.world, T2(job), PlantActions(job)).events;
    ReportedConcat(upto, RunAll(job.view.world, T4(job), DropsOf(job, limits)).events);
    ReportedConcat(PreEvents(job.PreRemoves(job.next)), y + z);
    ReportedConcat(y, z);
  }

  lemma PreEventsRun(job: Job)
    requires job.Valid() && PrefixFree(job.next)
    ensures RunAll(job.view.world, job.view.tree, PreActions(job.PreRemoves(job.next))).events
            == PreEvents(job.PreRemoves(job.next))
  {
    hide Job.Judge;
    assert job.next[..|job.next|] == job.next;
    PreRemovesOrdered(job, |job.next|);
    OrderedRuns(job.view.world, job.view.tree, job.PreRemoves(job.next));
  }

  /** What is reported of a run that goes through: every list in plan order, with the removals that are
      performed, and the planned directories first among those pruned. */
  lemma RunReports(job: Job, limits: seq<nat>)
    requires Steady(job) && |limits| == |job.Removes(job.prev)|
    ensures RunAll(job.view.world, job.view.tree, Schedule(job, false, limits)).done
    ensures Foretells(Preview(job.ThePlan().(remove := Performed(job))),
                      Reported(RunAll(job.view.world, job.view.tree, Schedule(job, false, limits)).events))
  {
    hide Job.Judge, T1, T2, T4, Report.Plus, Foretells, SaveForPruned, OnlyRemoval, OnlyAside, OnlyPlace, OnlyCopy;
    hide RunAll, Schedule, PlantActions, DropsOf, Reported, Performed;
    StagesChain(job, limits);
    StagesReported(job, limits);
    PlantsReported(job);
    ChainReported(job, limits);
    PerformedUnlink(job);
    RemovingsOnly(job.PreRemoves(job.next));
    RemovingsOnly(Performed(job));
    AsidingsOnly(job.Backups(job.next));
    PlacingsOnly(job.Places(job.next));
    CopyingsOnly(job.Copies(job.next));
    Assemble(Removings(job.PreRemoves(job.next)), Asidings(job.Backups(job.next)),
             Reported(RunAll(job.view.world, T2(job), PlantActions(job)).events),
             Reported(RunAll(job.view.world, T4(job), DropsOf(job, limits)).events),
             Placings(job.Places(job.next)), Copyings(job.Copies(job.next)), Removings(Performed(job)));
  }

  lemma PerformedUnlink(job: Job)
    ensures forall r :: r in Performed(job) ==> r.Unlink?
  {
    RemainingIs(T4(job), job.Removes(job.prev));
  }

  lemma {:induction false} RemovedCount(rs: seq<RemoveAction>)
    requires forall r :: r in rs ==> r.Unlink?
    ensures |Removings(rs).removed| == |rs|
  {
    if rs != [] { RemovedCount(rs[..|rs| - 1]); }
  }

  lemma RemovedOf(plan: Plan)
    ensures Preview(plan).removed == Removings(plan.preRemove).removed + Removings(plan.remove).removed
  {
    PlacingsOnly(plan.place);
    CopyingsOnly(plan.copies);
    AsidingsOnly(plan.backup);
  }

  /** Whether a dry run tells the truth: what it lists as placed, replaced, copied, removed and backed up is,
      in order, what the successful run on the same tree reports, and the directories it lists as pruned are
      the first ones that run prunes, if and only if no planned removal is of a link that goes aside with a
      copy and does not come back. */
  lemma DryRunForetells(job: Job, limits: seq<nat>)
    requires Steady(job) && |limits| == |job.Removes(job.prev)|
    ensures RunAll(job.view.world, job.view.tree, Schedule(job, false, limits)).done
    ensures Foretells(Preview(job.ThePlan()), Reported(RunAll(job.view.world, job.view.tree, Schedule(job, false, limits)).events))
            <==> Straight(job)
  {
    hide Job.Judge, Straight, Steady, Preview, RunAll, Schedule, Reported, Performed;
    var plan, actual := job.ThePlan(), Reported(RunAll(job.view.world, job.view.tree, Schedule(job, false, limits)).events);
    RunReports(job, limits);
    StraightIsPerformed(job);
    RemovesUnlink(job, job.prev);
    PerformedUnlink(job);
    RemovedCount(job.Removes(job.prev));
    RemovedCount(Performed(job));
    RemovedOf(plan);
    RemovedOf(plan.(remove := Performed(job)));
    if Straight(job) { assert plan.(remove := Performed(job)) == plan; }
  }
}
