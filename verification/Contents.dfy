/** What a run leaves at the targets it copies to. */
module Contents {
  import opened Sequences
  import opened Paths
  import opened Trees
  import opened Manifests
  import opened Planner
  import opened Steps
  import opened Program
  import opened Runs
  import opened Migrations
  import opened PlanFacts
  import opened Verdicts
  import opened Stages
  import opened Converge
  import opened Turns
  import opened Settle
  import opened Atomic
  import opened Leftovers

  /** At and beneath the target stands the source's content, all of it and nothing else. */
  ghost predicate HoldsSource(w: World, u: Tree, e: Entry) {
    var sub := w.content(LinkDest(e));
    forall y :: (y in sub <==> e.target + y in u) && (y in sub ==> u[e.target + y] == sub[y])
  }

  lemma AnewIsPlantable(job: Job, e: Entry)
    requires job.Valid() && e in job.next && CopiesAnew(job, e)
    ensures Plantable(job, e) && e.how == Copy
  {
    EntryCopies(job, e);
  }

  /** A dropped link stale removal still finds stands beneath no target that is copied to, unless the copy
      that was there has gone aside. */
  lemma NothingDropsBeneath(job: Job, e: Entry, pe: Entry)
    requires Steady(job) && e in job.next && e.how == Copy && Plantable(job, e) && !GoesAside(job, e)
    requires pe in job.prev && job.Leave(pe).Doomed?
    ensures !(e.target <= pe.target)
  {
    DoomedIsLive(job, pe);
    EntryBackup(job, e);
    JudgeMeans(job, e);
    InNextBy(job, e);
    hide Job.Judge, Job.Leave, GoesAside, T2, T4, Lstat, Standing;
    if e.target <= pe.target {
      SameOrAbove(e.target, pe.target);
      AncestorsAreDirs(job.view.tree, pe.target, e.target);
    }
  }

  lemma TakenIsAbove(t: Tree, u: Tree, rs: seq<RemoveAction>, q: Path) returns (r: RemoveAction)
    requires Shrunk(t, u, rs) && q in t && q !in u
    ensures r in rs && q <= r.At()
  {
    if t[q] == Dir {
      r :| r in rs && r.Unlink? && q < r.entry.target && Live(t, r.entry);
    } else {
      r :| r in rs && r.Unlink? && r.entry.target == q && Live(t, r.entry);
    }
  }

  /** A copy that is made holds its source's content when the run is over. */
  lemma CopyHoldsSource(job: Job, limits: seq<nat>, e: Entry)
    requires Steady(job) && |limits| == |job.Removes(job.prev)|
    requires e in job.next && CopiesAnew(job, e) && !GoesAside(job, e)
    ensures HoldsSource(job.view.world, End(job.view.world, job.view.tree, Schedule(job, false, limits)), e)
  {
    SteadyIs(job);
    hide *;
    AnewIsPlantable(job, e);
    StagesChain(job, limits);
    StageFive(job, limits);
    ShrunkIsPart(T4(job), T5(job, limits), job.Removes(job.prev));
    forall y
      ensures var sub := job.view.world.content(LinkDest(e));
              (y in sub <==> e.target + y in T5(job, limits)) && (y in sub ==> T5(job, limits)[e.target + y] == sub[y])
    {
      FreshAtFour(job, e, y);
      if e.target + y in T4(job) && e.target + y !in T5(job, limits) {
        var r := TakenIsAbove(T4(job), T5(job, limits), job.Removes(job.prev), e.target + y);
        RemoveIsOf(job, job.prev, r);
        RemoveAtIs(r);
        NothingDropsBeneath(job, e, r.entry);
        AboveToo(e.target, y, r.entry.target);
      }
    }
    HoldsIs(job.view.world, T5(job, limits), e);
    EndIs(job, limits);
  }

  lemma HoldsIs(w: World, u: Tree, e: Entry)
    requires forall y ::
               var sub := w.content(LinkDest(e));
               (y in sub <==> e.target + y in u) && (y in sub ==> u[e.target + y] == sub[y])
    ensures HoldsSource(w, u, e)
  {
  }

  lemma EndIs(job: Job, limits: seq<nat>)
    requires |limits| == |job.Removes(job.prev)|
    ensures End(job.view.world, job.view.tree, Schedule(job, false, limits))
            == Exec(job.view.tree, RunAll(job.view.world, job.view.tree, Schedule(job, false, limits)).events)
  {
    hide RunAll, Exec, Schedule;
  }

  lemma SteadyIs(job: Job)
    requires Steady(job)
    ensures Runnable(job) && job.Valid()
  {
  }

  lemma RemoveAtIs(r: RemoveAction)
    ensures r.Unlink? ==> r.At() == r.entry.target
  {
  }

  lemma AboveToo(p: Path, y: Path, q: Path)
    requires p + y <= q
    ensures p <= q
  {
    assert p <= p + y;
  }

  /** A recorded link whose entry becomes a copy is unlinked and the source is copied there. */
  lemma LinkBecomesCopy(job: Job, limits: seq<nat>, e: Entry, pe: Entry)
    requires Steady(job) && |limits| == |job.Removes(job.prev)|
    requires e in job.next && e.how == Copy && pe in job.prev && pe.how == Symlink && pe.target == e.target
    requires pe.target in job.view.tree && StillRecorded(job.view, pe)
    ensures Unlink(pe) in job.PreRemoves(job.next) && CopyAction(e) in job.Copies(job.next)
    ensures HoldsSource(job.view.world, End(job.view.world, job.view.tree, Schedule(job, false, limits)), e)
  {
    SteadyIs(job);
    SteadyNames(job);
    ByTargetIsExact(job.prev, pe);
    Becoming(job, e, pe);
    hide *;
    CopiesExactly(job, e);
    PreRemovesExactly(job, Unlink(pe));
    CopyHoldsSource(job, limits, e);
  }

  lemma SteadyNames(job: Job)
    requires Steady(job)
    ensures PrefixFree(job.next) && Distinct(job.prev)
  {
  }

  lemma Becoming(job: Job, e: Entry, pe: Entry)
    requires e.how == Copy && pe in job.prev && pe.how == Symlink && pe.target == e.target && job.PrevBy()[pe.target] == pe
    requires pe.target in job.view.tree && StillRecorded(job.view, pe)
    ensures CopiesAnew(job, e) && ClearsFor(job, e, Unlink(pe)) && !GoesAside(job, e)
  {
    assert BecomesCopy(job, e);
  }

  // --recopy.

  lemma BareBeneath(t: Tree, p: Path)
    requires ValidTree(t) && p !in t
    ensures forall y :: p + y !in WithParents(t, p, |p|)
  {
    NothingBeneath(t, p);
    forall y ensures p + y !in WithParents(t, p, |p|) {
      assert p + y == p || p < p + y;
      forall k | 0 <= k < |p| ensures p[..k] != p + y { assert |p[..k]| < |p + y|; }
    }
  }

  lemma RecopyOver(v: View, e: Entry)
    requires ValidTree(v.tree) && e.target in v.tree
    ensures HoldsSource(v.world,
                        Exec(v.tree, [SetAside(e.target, AsideOf(e)), Graft(e.target, v.world.content(LinkDest(e)), true)]), e)
  {
    var p, aside, sub := e.target, AsideOf(e), v.world.content(LinkDest(e));
    assert |aside| == |p| && aside != p;
    hide *;
    TwoExec(v.tree, SetAside(p, aside), Graft(p, sub, true));
    NothingLeftBehind(v.tree, p, aside);
    AppliedBoth(v.tree, p, aside, sub);
    GraftHolds(Moved(v.tree, p, aside), e, sub, v.world);
  }

  lemma AppliedBoth(t: Tree, p: Path, aside: Path, sub: Tree)
    ensures Apply(Apply(t, SetAside(p, aside)), Graft(p, sub, true)) == Grafted(Moved(t, p, aside), p, sub)
  {
    hide Moved, Grafted;
  }

  lemma RecopyAnew(v: View, e: Entry)
    requires ValidTree(v.tree) && e.target !in v.tree && WayClear(v.tree, e.target)
    ensures HoldsSource(v.world,
                        Exec(v.tree, [OpenCopy(e.target)] + Parents(v.tree, e.target, |e.target|)
                                     + [Graft(e.target, v.world.content(LinkDest(e)), false)]), e)
  {
    var p, sub := e.target, v.world.content(LinkDest(e));
    ParentsRun(v.tree, p, |p|);
    BareBeneath(v.tree, p);
    OpenedExec(v.tree, p, Parents(v.tree, p, |p|), Graft(p, sub, false));
    GraftHolds(WithParents(v.tree, p, |p|), e, sub, v.world);
  }

  /** A recopy that goes through leaves the source's content at the target. */
  lemma RecopyHoldsSource(v: View, e: Entry)
    requires ValidTree(v.tree) && RunOne(v, DoRecopy(e)).done
    ensures HoldsSource(v.world, Exec(v.tree, RunOne(v, DoRecopy(e)).events), e)
  {
    RecopyIsRun(v, e);
    hide *;
    if e.target in v.tree { RecopyOver(v, e); } else { RecopyAnew(v, e); }
  }

  lemma RecopyIsRun(v: View, e: Entry)
    requires RunOne(v, DoRecopy(e)).done
    ensures var p, sub := e.target, v.world.content(LinkDest(e));
            if p in v.tree then
              RunOne(v, DoRecopy(e)).events == [SetAside(p, AsideOf(e)), Graft(p, sub, true)]
            else
              WayClear(v.tree, p)
              && RunOne(v, DoRecopy(e)).events == [OpenCopy(p)] + Parents(v.tree, p, |p|) + [Graft(p, sub, false)]
  {
    hide WayClear, Parents, Lstat, CanRename;
  }

  lemma TwoExec(t: Tree, d: Event, g: Event)
    ensures Exec(t, [d, g]) == Apply(Apply(t, d), g)
  {
    ExecConcat(t, [d], [g]);
    assert [d] + [g] == [d, g];
    assert [d][..0] == [] && [g][..0] == [];
  }

  lemma OpenedExec(t: Tree, p: Path, parents: seq<Event>, g: Event)
    requires parents == Parents(t, p, |p|)
    ensures Exec(t, [OpenCopy(p)] + parents + [g]) == Apply(Exec(t, parents), g)
  {
    ExecConcat(t, [OpenCopy(p)], parents);
    ExecConcat(t, [OpenCopy(p)] + parents, [g]);
    assert [OpenCopy(p)][..0] == [] && [g][..0] == [];
    hide Exec, Apply, Parents;
    OpenWritesNothing(t, p);
  }

  lemma OpenWritesNothing(t: Tree, p: Path)
    ensures Exec(t, [OpenCopy(p)]) == t
  {
    assert [OpenCopy(p)][..0] == [];
  }

  lemma NothingLeftBehind(t: Tree, p: Path, aside: Path)
    requires ValidTree(t) && p != aside && |p| == |aside|
    ensures forall y :: p + y !in Moved(t, p, aside)
  {
    forall y ensures p + y !in Moved(t, p, aside) {
      assert p <= p + y;
      assert (p + y)[..|p|] == p;
    }
  }

  lemma GraftHolds(t: Tree, e: Entry, sub: Tree, w: World)
    requires sub == w.content(LinkDest(e)) && forall y :: e.target + y !in t
    ensures HoldsSource(w, Grafted(t, e.target, sub), e)
  {
    GraftedAt(t, e.target, sub);
    forall y ensures e.target <= e.target + y && (e.target + y)[|e.target|..] == y {}
  }

  /** Later recopies leave an earlier one alone. */
  lemma LaterMisses(next: Manifest, e: Entry, f: Entry, y: Path)
    requires PrefixFree(next) && AsidesFree(next, RECOPY_SUFFIX) && e in next && f in next && e != f
    ensures Misses(DoRecopy(f), e.target + y)
  {
    EntriesApart(next, e, f);
    var x, aside := e.target + y, AsideOf(f);
    assert e.target <= x;
    AsideApart(next, RECOPY_SUFFIX, f, e);
    if f.target <= x { Comparable(e.target, f.target, x); }
    if aside <= x { Comparable(e.target, aside, x); }
  }

  /** Where the copy stage of a --recopy run stands before the n-th entry. */
  function Before(job: Job, n: nat): Tree
    requires n <= |job.next|
  {
    End(job.view.world, T2(job), LinkPlaces(job) + CopiesUpto(job, true, n))
  }

  lemma OneMoreRecopy(job: Job, n: nat)
    requires n < |job.next| && RunAll(job.view.world, T2(job), LinkPlaces(job) + CopiesUpto(job, true, n + 1)).done
    ensures job.next[n].how == Copy ==>
              Before(job, n + 1)
              == Exec(Before(job, n), RunOne(View(Before(job, n), job.view.world), DoRecopy(job.next[n])).events)
    ensures job.next[n].how != Copy ==> Before(job, n + 1) == Before(job, n)
  {
    hide T2, CopiesUpto, RunOne;
    var w, upto := job.view.world, CopiesUpto(job, true, n);
    DoneBefore(job, LinkPlaces(job), n);
    CopiesUptoNext(job, true, n);
    if job.next[n].how == Copy {
      SnocConcat(LinkPlaces(job), upto, DoRecopy(job.next[n]));
      RunAllSnoc(w, T2(job), LinkPlaces(job) + upto, DoRecopy(job.next[n]));
      ExecConcat(T2(job), RunAll(w, T2(job), LinkPlaces(job) + upto).events,
                 RunOne(View(Before(job, n), w), DoRecopy(job.next[n])).events);
    } else {
      EmptyEnd(upto, []);
    }
  }

  lemma SameAtTarget(job: Job, e: Entry, n: nat, y: Path)
    requires Orderly(job) && AsidesNamed(job) && n < |job.next| && e in job.next[..n]
    requires RunAll(job.view.world, T2(job), LinkPlaces(job) + CopiesUpto(job, true, n + 1)).done
    ensures NodeAt(Before(job, n + 1), e.target + y) == NodeAt(Before(job, n), e.target + y)
  {
    OneMoreRecopy(job, n);
    EarlierIsApart(job.next, n, e);
    hide T2, Before, RunAll;
    var f := job.next[n];
    if f.how == Copy {
      LaterMisses(job.next, e, f, y);
      OnePassedBy(job.view.world, Before(job, n), f, e.target + y);
    }
  }

  lemma OnePassedBy(w: World, t: Tree, f: Entry, x: Path)
    requires Misses(DoRecopy(f), x)
    ensures NodeAt(Exec(t, RunOne(View(t, w), DoRecopy(f)).events), x) == NodeAt(t, x)
  {
    RunOneFrom(View(t, w), DoRecopy(f));
    hide RunOne;
    AllPassBy(t, RunOne(View(t, w), DoRecopy(f)).events, x);
  }

  /** After --recopy every copy target holds its source's content, whatever was there. */
  lemma {:induction false} RecopiesHoldSources(job: Job, n: nat)
    requires Orderly(job) && AsidesNamed(job) && n <= |job.next|
    requires RunAll(job.view.world, T2(job), LinkPlaces(job) + CopiesUpto(job, true, n)).done
    ensures forall e :: e in job.next[..n] && e.how == Copy ==> HoldsSource(job.view.world, Before(job, n), e)
  {
    hide T2, Before, RunAll, CopiesUpto, HoldsSource, NodeAt, RunOne, Orderly, AsidesNamed;
    if n > 0 {
      var last, u := job.next[n - 1], Before(job, n - 1);
      DoneBefore(job, LinkPlaces(job), n - 1);
      RecopiesHoldSources(job, n - 1);
      Prefix(job.next, n);
      forall e | e in job.next[..n] && e.how == Copy ensures HoldsSource(job.view.world, Before(job, n), e) {
        if e in job.next[..n - 1] {
          forall y ensures NodeAt(Before(job, n), e.target + y) == NodeAt(u, e.target + y) { SameAtTarget(job, e, n - 1, y); }
          StillHolds(job.view.world, u, Before(job, n), e);
        } else {
          OneMoreRecopy(job, n - 1);
          BeforeIsValid(job, n - 1);
          RecopyHoldsSource(View(u, job.view.world), last);
        }
      }
    }
  }

  lemma BeforeIsValid(job: Job, n: nat)
    requires Orderly(job) && n <= |job.next|
    ensures ValidTree(Before(job, n))
    ensures Before(job, n) == End(job.view.world, T2(job), LinkPlaces(job) + CopiesUpto(job, true, n))
  {
    hide T2, End;
    TurnIsValid(job, LinkPlaces(job) + CopiesUpto(job, true, n));
  }

  lemma StillHolds(w: World, t: Tree, u: Tree, e: Entry)
    requires HoldsSource(w, t, e) && forall y :: NodeAt(u, e.target + y) == NodeAt(t, e.target + y)
    ensures HoldsSource(w, u, e)
  {
    var sub := w.content(LinkDest(e));
    forall y ensures (y in sub <==> e.target + y in u) && (y in sub ==> u[e.target + y] == sub[y]) {
      assert NodeAt(u, e.target + y) == NodeAt(t, e.target + y);
    }
  }

  /** No recopy is to be refused: every source is there and every copy that is there can be renamed aside. */
  ghost predicate AllGoThrough(job: Job) {
    forall e :: e in job.next && e.how == Copy ==> GoesThrough(job, e)
  }

  lemma AllGoThroughIs(job: Job)
    ensures AllGoThrough(job) <==> forall m :: 0 <= m < |job.next| && job.next[m].how == Copy ==> GoesThrough(job, job.next[m])
  {
    hide GoesThrough;
    forall e | e in job.next ensures exists m :: 0 <= m < |job.next| && job.next[m] == e {}
  }

  ghost predicate AllHoldSources(job: Job, u: Tree) {
    forall e :: e in job.next && e.how == Copy ==> HoldsSource(job.view.world, u, e)
  }

  lemma AllHoldIs(job: Job, u: Tree)
    requires forall e :: e in job.next[..|job.next|] && e.how == Copy ==> HoldsSource(job.view.world, u, e)
    ensures AllHoldSources(job, u)
  {
    hide HoldsSource;
    Whole(job.next);
  }

  lemma RecopyStage(job: Job)
    requires Runnable(job) && AsidesNamed(job)
    ensures var stage := LinkPlaces(job) + RecopyActions(job.next);
            && (RunAll(job.view.world, T2(job), stage).done <==> AllGoThrough(job))
            && (RunAll(job.view.world, T2(job), stage).done ==> AllHoldSources(job, End(job.view.world, T2(job), stage)))
  {
    var n := |job.next|;
    UptoAllOf(job);
    RunnableIs(job);
    PlacesAreLinks(job);
    hide *;
    AllGoThroughIs(job);
    if RunAll(job.view.world, T2(job), LinkPlaces(job) + CopiesUpto(job, true, n)).done {
      AllWentThrough(job, LinkPlaces(job), n);
      RecopiesHoldSources(job, n);
      BeforeIsValid(job, n);
      AllHoldIs(job, Before(job, n));
    }
    if AllGoThrough(job) { RecopiesRun(job, n); }
  }

  lemma UptoAllOf(job: Job)
    ensures CopiesUpto(job, true, |job.next|) == RecopyActions(job.next)
  {
    Whole(job.next);
  }

  lemma RunnableIs(job: Job)
    requires Runnable(job)
    ensures Orderly(job) && job.Valid()
  {
  }

  /** Everything a --recopy run does before stale removal. */
  function UptoCopies(job: Job): seq<Action> {
    Front(job) + CopyStage(job, true)
  }

  lemma UptoCopiesIs(job: Job, limits: seq<nat>)
    requires |limits| == |job.Removes(job.prev)|
    ensures UptoCopies(job) == PreActions(job.PreRemoves(job.next)) + (BackupActions(job.Backups(job.next))
                               + (LinkPlaces(job) + RecopyActions(job.next)))
    ensures Schedule(job, true, limits) == UptoCopies(job) + DropsOf(job, limits)
  {
    hide PreActions, BackupActions, PlaceActions, RecopyActions, DropsOf;
    var a, b := PreActions(job.PreRemoves(job.next)), BackupActions(job.Backups(job.next));
    var p, r := LinkPlaces(job), RecopyActions(job.next);
    assert (a + b + p) + r == a + (b + (p + r));
  }

  /** A --recopy run gets through its copy stage exactly if no recopy is to be refused; each copy target
      then holds its source. */
  lemma RecopyExactly(job: Job)
    requires Runnable(job) && AsidesNamed(job)
    ensures RunAll(job.view.world, job.view.tree, UptoCopies(job)).done <==> AllGoThrough(job)
    ensures AllGoThrough(job) ==> AllHoldSources(job, End(job.view.world, job.view.tree, UptoCopies(job)))
  {
    RunnableIs(job);
    hide *;
    UptoCopiesIs(job, NoDrops(job));
    RecopyStage(job);
    var rest := LinkPlaces(job) + RecopyActions(job.next);
    var upto := FrontChains(job, rest);
    EndFrom(job.view.world, job.view.tree, T2(job), UptoCopies(job), upto, rest);
  }

  function NoDrops(job: Job): seq<nat> {
    seq(|job.Removes(job.prev)|, i => 0)
  }

  lemma EndFrom(w: World, t: Tree, u: Tree, all: seq<Action>, upto: seq<Event>, rest: seq<Action>)
    requires Exec(t, upto) == u && RunAll(w, t, all) == Outcome(upto + RunAll(w, u, rest).events, RunAll(w, u, rest).done)
    ensures End(w, t, all) == End(w, u, rest)
  {
    hide RunAll, Exec;
    ExecConcat(t, upto, RunAll(w, u, rest).events);
  }
}
