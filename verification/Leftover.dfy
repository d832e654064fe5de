/** What a --recopy run does to an aside that an earlier, interrupted one left behind. */
module Leftovers {
  import opened Sequences
  import opened Paths
  import opened Trees
  import opened Manifests
  import opened Planner
  import opened Steps
  import opened Undo
  import opened Program
  import opened Runs
  import opened Migrations
  import opened PlanFacts
  import opened Stages
  import opened Converge
  import opened Turns
  import opened Settle
  import opened Atomic

  // Recopies that are not refused go through.

  predicate Opens(e: Event, q: Path) {
    e.MkParent? || PassesBy(e, q)
  }

  lemma {:induction false} StaysOpen(t: Tree, es: seq<Event>, q: Path)
    requires (forall e :: e in es ==> Opens(e, q)) && (q in t ==> t[q] == Dir)
    ensures q in Exec(t, es) ==> Exec(t, es)[q] == Dir
  {
    if es != [] {
      var init, e := es[..|es| - 1], es[|es| - 1];
      assert e in es && forall y :: y in init ==> y in es;
      StaysOpen(t, init, q);
      if PassesBy(e, q) { PassedBy(Exec(t, init), e, q); }
    }
  }

  lemma OthersOpen(next: Manifest, a: Action, x: Event, e: Entry, q: Path)
    requires PrefixFree(next) && AsidesFree(next, RECOPY_SUFFIX) && a.MakesParents() && a.entry in next && e in next
    requires a.entry != e && From(x, a) && q < e.target
    ensures Opens(x, q)
  {
    EntriesApart(next, a.entry, e);
  }

  lemma WayStaysOpen(job: Job, places: seq<Action>, n: nat, q: Path)
    requires job.Valid() && PrefixFree(job.next) && AsidesFree(job.next, RECOPY_SUFFIX) && LinksOnly(job.next, places)
    requires n < |job.next| && job.next[n].how == Copy && q < job.next[n].target && (q in T2(job) ==> T2(job)[q] == Dir)
    ensures var u := End(job.view.world, T2(job), places + CopiesUpto(job, true, n)); q in u ==> u[q] == Dir
  {
    hide T2, Opens, Job.Judge;
    var before := places + CopiesUpto(job, true, n);
    var es := RunAll(job.view.world, T2(job), before).events;
    forall x | x in es ensures Opens(x, q) {
      var a := RunAllFrom(job.view.world, T2(job), before, x);
      if a in CopiesUpto(job, true, n) { CopiesUptoIs(job, true, n, a); }
      OthersOpen(job.next, a, x, job.next[n], q);
    }
    StaysOpen(T2(job), es, q);
  }

  lemma WayIsStillClear(job: Job, places: seq<Action>, n: nat)
    requires Orderly(job) && AsidesFree(job.next, RECOPY_SUFFIX) && LinksOnly(job.next, places)
    requires n < |job.next| && job.next[n].how == Copy && Plantable(job, job.next[n])
    ensures WayClear(End(job.view.world, T2(job), places + CopiesUpto(job, true, n)), job.next[n].target)
  {
    hide T2, Plantable;
    var p, u := job.next[n].target, End(job.view.world, T2(job), places + CopiesUpto(job, true, n));
    TargetIsReady(job, job.next[n]);
    forall k | 0 <= k < |p| && p[..k] in u ensures u[p[..k]] == Dir { WayStaysOpen(job, places, n, p[..k]); }
  }

  lemma AcceptedCopy(job: Job, e: Entry)
    requires job.Valid() && job.Accepted() && e in job.next && e.how == Copy && !Plantable(job, e)
    ensures e.target in job.view.tree
  {
    JudgeMeans(job, e);
    if job.Judge(e).Clash? { ConflictIsListed(job, job.next, e); }
  }

  function LinkPlaces(job: Job): seq<Action> {
    PlaceActions(job.Places(job.next))
  }

  /** The recopy of a copy that is there, and of one that is not. */
  lemma RecopyOverRuns(v: View, e: Entry)
    requires ValidTree(v.tree) && e.target in v.tree && v.world.probe(LinkDest(e)).Found?
    requires AsideOf(e) in v.tree ==> v.tree[e.target] != Dir && v.tree[AsideOf(e)] != Dir
    ensures CanRename(v.tree, e.target, AsideOf(e)) && RunOne(v, DoRecopy(e)).done
  {
    AncestorsAreDirs(v.tree, e.target, Parent(e.target));
  }

  lemma RecopyAfreshRuns(v: View, e: Entry)
    requires ValidTree(v.tree) && e.target !in v.tree && WayClear(v.tree, e.target) && v.world.probe(LinkDest(e)).Found?
    ensures RunOne(v, DoRecopy(e)).done
  {
    ClearIsAbsent(v, e.target);
  }

  lemma TurnIsValid(job: Job, actions: seq<Action>)
    requires Orderly(job)
    ensures ValidTree(End(job.view.world, T2(job), actions))
  {
    hide T2, RunAll;
    StageTwo(job);
    RunAllLegal(job.view.world, T2(job), actions);
  }

  lemma RecopyRuns(job: Job, n: nat)
    requires Runnable(job) && AsidesNamed(job) && n < |job.next| && job.next[n].how == Copy && GoesThrough(job, job.next[n])
    ensures RunOne(View(End(job.view.world, T2(job), LinkPlaces(job) + CopiesUpto(job, true, n)), job.view.world),
                   DoRecopy(job.next[n])).done
  {
    SteadyRuns(job);
    hide T2, Plantable, CopiesUpto, End, RunAll, RunOne, Orderly, Overwrites;
    var e, before := job.next[n], LinkPlaces(job) + CopiesUpto(job, true, n);
    var u := End(job.view.world, T2(job), before);
    PlacesAreLinks(job);
    RecopyAtTurn(job, LinkPlaces(job), n);
    TurnIsValid(job, before);
    if e.target in u {
      RecopyOverRuns(View(u, job.view.world), e);
    } else {
      if !Plantable(job, e) { AcceptedCopy(job, e); }
      WayIsStillClear(job, LinkPlaces(job), n);
      RecopyAfreshRuns(View(u, job.view.world), e);
    }
  }

  lemma {:induction false} RecopiesRun(job: Job, n: nat)
    requires Runnable(job) && AsidesNamed(job) && n <= |job.next|
    requires forall m :: 0 <= m < n && job.next[m].how == Copy ==> GoesThrough(job, job.next[m])
    ensures RunAll(job.view.world, T2(job), LinkPlaces(job) + CopiesUpto(job, true, n)).done
  {
    hide *;
    var w := job.view.world;
    if n == 0 {
      PlacesRun(job);
      NoneUpto(job, true);
      EmptyEnd(LinkPlaces(job), CopiesUpto(job, true, 0));
    } else {
      var e, upto := job.next[n - 1], CopiesUpto(job, true, n - 1);
      RecopiesRun(job, n - 1);
      CopiesUptoNext(job, true, n - 1);
      EmptyEnd(upto, []);
      if e.how == Copy {
        RecopyRuns(job, n - 1);
        SnocConcat(LinkPlaces(job), upto, DoRecopy(e));
        OneMoreDone(w, T2(job), LinkPlaces(job) + upto, DoRecopy(e));
      }
    }
  }

  lemma OneMoreDone(w: World, t: Tree, before: seq<Action>, a: Action)
    requires RunAll(w, t, before).done && RunOne(View(End(w, t, before), w), a).done
    ensures RunAll(w, t, before + [a]).done
  {
    RunAllSnoc(w, t, before, a);
  }

  lemma PlacesRun(job: Job)
    requires Runnable(job)
    ensures RunAll(job.view.world, T2(job), LinkPlaces(job)).done
  {
    SteadyRuns(job);
    hide T2, RunAll;
    RunAllConcat(job.view.world, T2(job), LinkPlaces(job), CopyActions(job.Copies(job.next)));
  }

  // What unwinding cannot bring back.

  lemma UndoneElsewhere(t: Tree, op: UndoOp, x: Path)
    requires op.path != [] && x !in t && !(op.path <= x)
    ensures x !in UndoOne(t, op).tree
  {
  }

  lemma {:induction false} NeverMade(t: Tree, journal: seq<UndoOp>, x: Path)
    requires Rooted(journal) && x !in t && forall op :: op in journal ==> !(op.path <= x)
    ensures x !in UndoAll(t, journal)
    decreases |journal|
  {
    if journal != [] {
      var op := journal[|journal| - 1];
      assert op in journal;
      UndoneElsewhere(t, op, x);
      NeverMade(UndoOne(t, op).tree, journal[..|journal| - 1], x);
    }
  }

  lemma {:induction false} JournaledBy(es: seq<Event>, op: UndoOp) returns (e: Event)
    requires op in Journal(es)
    ensures e in es && op.path == e.path && !e.MkParent?
  {
    var init, last := es[..|es| - 1], es[|es| - 1];
    if op in Journal(init) { e := JournaledBy(init, op); } else { e := last; }
  }

  lemma RenamedBackEmpties(t: Tree, p: Path, a: Path)
    requires p != [] && !(p <= a) && (a in t ==> Parent(p) in t && t[Parent(p)] == Dir)
    ensures a !in RenameBack(t, a, p).tree
  {
  }

  lemma ParentAfterPruning(v: Tree, p: Path, a: Path)
    requires ValidTree(v) && p != [] && a != [] && Parent(a) == Parent(p)
    ensures a in Pruned(v, p) ==> Parent(p) in Pruned(v, p) && Pruned(v, p)[Parent(p)] == Dir
  {
    assert !(p <= Parent(p));
  }

  lemma UndoIsRename(v: Tree, p: Path, a: Path)
    requires p != []
    ensures UndoOne(v, UndoRestoreRename(p, a)) == RenameBack(Pruned(v, p), a, p)
  {
  }

  /** Taking a rename back empties the aside, whatever had stood there. */
  lemma AsideIsEmptied(u: Tree, p: Path, a: Path)
    requires ValidTree(u) && Enabled(u, SetAside(p, a))
    ensures a !in UndoOne(Apply(u, SetAside(p, a)), UndoRestoreRename(p, a)).tree
  {
    var v := Apply(u, SetAside(p, a));
    ApplyValid(u, SetAside(p, a));
    assert p != [] && a != [] && Parent(a) == Parent(p) && a != p;
    hide *;
    SiblingsApart(p, a);
    ParentAfterPruning(v, p, a);
    UndoIsRename(v, p, a);
    RenamedBackEmpties(Pruned(v, p), p, a);
  }

  lemma SiblingsApart(p: Path, a: Path)
    requires p != [] && a != [] && Parent(a) == Parent(p) && a != p
    ensures !(p <= a)
  {
    assert |a| == |p|;
  }

  // A leftover aside that is overwritten is lost.

  lemma StopsAside(w: World, t: Tree, before: seq<Action>, e: Entry, after: seq<Action>) returns (cut: seq<Event>)
    requires RunAll(w, t, before).done
    requires e.target in End(w, t, before) && CanRename(End(w, t, before), e.target, AsideOf(e))
    ensures cut == RunAll(w, t, before).events + [SetAside(e.target, AsideOf(e))]
    ensures var r := RunAll(w, t, before + [DoRecopy(e)] + after); cut <= r.events && !(r == Outcome(cut, true))
  {
    hide RunAll, CanRename, End, RunOne;
    var u := End(w, t, before);
    cut := RunAll(w, t, before).events + [SetAside(e.target, AsideOf(e))];
    RunAllSnoc(w, t, before, DoRecopy(e));
    RunAllConcat(w, t, before + [DoRecopy(e)], after);
    RecopyStarts(View(u, w), e);
    EndIs(w, t, before);
  }

  lemma RecopyStarts(v: View, e: Entry)
    requires e.target in v.tree && CanRename(v.tree, e.target, AsideOf(e))
    ensures var r := RunOne(v, DoRecopy(e)); [SetAside(e.target, AsideOf(e))] <= r.events && (r.done ==> |r.events| == 2)
  {
  }

  lemma {:induction false} RecopiesFrom(m: Manifest, n: nat) returns (rest: seq<Action>)
    requires n <= |m|
    ensures RecopyActions(m) == RecopyActions(m[..n]) + rest
    decreases |m|
  {
    if n == |m| {
      Whole(m);
      rest := [];
    } else {
      var init := m[..|m| - 1];
      assert init[..n] == m[..n];
      rest := RecopiesFrom(init, n);
      rest := rest + if m[|m| - 1].how == Copy then [DoRecopy(m[|m| - 1])] else [];
    }
  }

  /** No write before the recopy of an entry has its inverse at or above the entry's aside. */
  lemma WriteOffTheAside(job: Job, e: Entry, a: Action, x: Event)
    requires Orderly(job) && AsidesNamed(job) && e in job.next && e.how == Copy && From(x, a) && !x.MkParent?
    requires a in PreActions(job.PreRemoves(job.next)) ==> AsideOf(e) in job.view.tree
    requires || a in PreActions(job.PreRemoves(job.next)) || a in BackupActions(job.Backups(job.next))
             || (a.MakesParents() && a.entry in job.next && a.entry != e)
    ensures !(x.path <= AsideOf(e))
  {
    if a in PreActions(job.PreRemoves(job.next)) {
      PreActionIs(job.PreRemoves(job.next), a);
      PreWriteOffTheAside(job, e, a, x);
    } else if a in BackupActions(job.Backups(job.next)) {
      BackupActionIs(job.Backups(job.next), a);
      BackupOffTheAside(job, e, BackupAction(a.entry, a.aside));
    } else {
      OthersMissAside(job.next, a, e);
    }
  }

  lemma {:induction false} PreActionAt(rs: seq<RemoveAction>, a: Action)
    requires a in PreActions(rs)
    ensures a.PreDrop? ==> a.entry.target in At(rs)
    ensures a.PreRmDir? ==> a.dir in At(rs)
  {
    var init, r := rs[..|rs| - 1], rs[|rs| - 1];
    assert r in rs && r.At() in At(rs) && At(init) <= At(rs);
    if a in PreActions(init) { PreActionAt(init, a); }
  }

  lemma PreWriteOffTheAside(job: Job, e: Entry, a: Action, x: Event)
    requires Orderly(job) && AsidesFree(job.next, RECOPY_SUFFIX) && e in job.next && From(x, a)
    requires a in PreActions(job.PreRemoves(job.next)) && (a.PreDrop? || a.PreRmDir?) && AsideOf(e) in job.view.tree
    ensures !(x.path <= AsideOf(e))
  {
    hide Job.Judge, Job.PreRemoves;
    PreActionAt(job.PreRemoves(job.next), a);
    AsideNotPreRemoved(job, e);
    T1Valid(job);
    if x.path <= AsideOf(e) && x.path != AsideOf(e) { AncestorsAreDirs(T1(job), AsideOf(e), x.path); }
  }

  /** The writes up to the recopy of the n-th entry. */
  lemma NothingAtTheAside(job: Job, n: nat, cut: seq<Event>, op: UndoOp)
    requires Orderly(job) && AsidesNamed(job) && n < |job.next| && job.next[n].how == Copy
    requires AsideOf(job.next[n]) in job.view.tree
    requires cut == RunAll(job.view.world, job.view.tree, PreActions(job.PreRemoves(job.next))).events
                    + RunAll(job.view.world, T1(job), BackupActions(job.Backups(job.next))).events
                    + RunAll(job.view.world, T2(job), LinkPlaces(job) + CopiesUpto(job, true, n)).events
    requires op in Journal(cut)
    ensures !(op.path <= AsideOf(job.next[n]))
  {
    hide RunAll, T1, T2, Job.Judge, PreActions, BackupActions, CopiesUpto, LinkPlaces, Journal;
    var w := job.view.world;
    var pre, backups := PreActions(job.PreRemoves(job.next)), BackupActions(job.Backups(job.next));
    var plants := LinkPlaces(job) + CopiesUpto(job, true, n);
    var x := JournaledBy(cut, op);
    var a: Action;
    if x in RunAll(w, job.view.tree, pre).events {
      a := RunAllFrom(w, job.view.tree, pre, x);
    } else if x in RunAll(w, T1(job), backups).events {
      a := RunAllFrom(w, T1(job), backups, x);
    } else {
      a := RunAllFrom(w, T2(job), plants, x);
      EarlierPlant(job, n, a);
    }
    WriteOffTheAside(job, job.next[n], a, x);
  }

  lemma EarlierPlant(job: Job, n: nat, a: Action)
    requires job.Valid() && PrefixFree(job.next) && n < |job.next| && job.next[n].how == Copy
    requires a in LinkPlaces(job) + CopiesUpto(job, true, n)
    ensures a.MakesParents() && a.entry in job.next && a.entry != job.next[n]
  {
    PlacesAreLinks(job);
    if a in CopiesUpto(job, true, n) { CopiesUptoIs(job, true, n, a); }
  }

  function UptoRecopy(job: Job, n: nat): seq<Action>
    requires n < |job.next|
  {
    LinkPlaces(job) + CopiesUpto(job, true, n)
  }

  lemma UptoIs(job: Job, n: nat)
    requires n < |job.next|
    ensures UptoRecopy(job, n) == LinkPlaces(job) + CopiesUpto(job, true, n)
  {
  }

  /** A run that fails right after setting the n-th entry's copy aside. */
  lemma FailsAside(job: Job, limits: seq<nat>, n: nat) returns (upto: seq<Event>)
    requires Runnable(job) && AsidesNamed(job) && |limits| == |job.Removes(job.prev)| && n < |job.next| && LosesAside(job, n)
    ensures upto == RunAll(job.view.world, job.view.tree, PreActions(job.PreRemoves(job.next))).events
                    + RunAll(job.view.world, T1(job), BackupActions(job.Backups(job.next))).events
    ensures Exec(job.view.tree, upto) == T2(job)
    ensures var e := job.next[n];
            Fails(job, true, limits, upto + (RunAll(job.view.world, T2(job), UptoRecopy(job, n)).events
                                             + [SetAside(e.target, AsideOf(e))]))
  {
    SteadyRuns(job);
    hide *;
    var w, e := job.view.world, job.next[n];
    Loses(job, n);
    UptoIs(job, n);
    RecopiesRun(job, n);
    AsideIsReached(job, n);
    var after := AfterRecopy(job, n, limits);
    ScheduleAt(job, n, limits, after);
    var last := StopsAside(w, T2(job), UptoRecopy(job, n), e, after);
    upto := FrontChains(job, UptoRecopy(job, n) + [DoRecopy(e)] + after);
    Failing(job, limits, upto, last, RunAll(w, T2(job), UptoRecopy(job, n) + [DoRecopy(e)] + after));
  }

  /** The recopy of an entry whose aside is taken fails midway: the leftover is gone, and stays gone. */
  lemma AsideIsLost(job: Job, limits: seq<nat>, n: nat) returns (cut: seq<Event>)
    requires Runnable(job) && AsidesNamed(job) && |limits| == |job.Removes(job.prev)| && n < |job.next| && LosesAside(job, n)
    ensures Fails(job, true, limits, cut)
    ensures AsideOf(job.next[n]) in job.view.tree && AsideOf(job.next[n]) !in Unwound(job.view.tree, cut)
  {
    SteadyRuns(job);
    hide *;
    Loses(job, n);
    UptoIs(job, n);
    var upto := FailsAside(job, limits, n);
    var first := RunAll(job.view.world, T2(job), UptoRecopy(job, n)).events;
    cut := upto + (first + [SetAside(job.next[n].target, AsideOf(job.next[n]))]);
    SnocConcat(upto, first, SetAside(job.next[n].target, AsideOf(job.next[n])));
    CutIsRooted(job, limits, cut);
    LostThen(job, n, upto, first);
  }

  lemma LostThen(job: Job, n: nat, upto: seq<Event>, first: seq<Event>)
    requires Orderly(job) && AsidesNamed(job) && n < |job.next| && LeftoverAside(job, job.next[n])
    requires upto == RunAll(job.view.world, job.view.tree, PreActions(job.PreRemoves(job.next))).events
                     + RunAll(job.view.world, T1(job), BackupActions(job.Backups(job.next))).events
    requires Exec(job.view.tree, upto) == T2(job)
    requires first == RunAll(job.view.world, T2(job), LinkPlaces(job) + CopiesUpto(job, true, n)).events
    requires Rooted(Journal((upto + first) + [SetAside(job.next[n].target, AsideOf(job.next[n]))]))
    ensures AsideOf(job.next[n])
            !in Unwound(job.view.tree, (upto + first) + [SetAside(job.next[n].target, AsideOf(job.next[n]))])
  {
    var e := job.next[n];
    assert e.how == Copy && AsideOf(e) in job.view.tree;
    hide *;
    ExecConcat(job.view.tree, upto, first);
    EndIs(job.view.world, T2(job), LinkPlaces(job) + CopiesUpto(job, true, n));
    AsideIsReached(job, n);
    forall op | op in Journal(upto + first) ensures !(op.path <= AsideOf(e)) { NothingAtTheAside(job, n, upto + first, op); }
    UnwoundLast(job.view.tree, upto + first, e);
  }

  lemma Loses(job: Job, n: nat)
    requires n < |job.next| && LosesAside(job, n)
    ensures job.next[n].how == Copy && AsideOf(job.next[n]) in job.view.tree && LeftoverAside(job, job.next[n])
    ensures forall m :: 0 <= m < n && job.next[m].how == Copy ==> GoesThrough(job, job.next[m])
  {
    hide GoesThrough, Plantable;
  }

  lemma AsideIsReached(job: Job, n: nat)
    requires Orderly(job) && AsidesNamed(job) && n < |job.next| && LeftoverAside(job, job.next[n])
    ensures var e, u := job.next[n], End(job.view.world, T2(job), LinkPlaces(job) + CopiesUpto(job, true, n));
            e.target in u && Enabled(u, SetAside(e.target, AsideOf(e))) && CanRename(u, e.target, AsideOf(e)) && ValidTree(u)
  {
    hide T2, RunAll, Plantable, CopiesUpto, End, LinkPlaces;
    var e, before := job.next[n], LinkPlaces(job) + CopiesUpto(job, true, n);
    PlacesOnlyLinks(job);
    RecopyAtTurn(job, LinkPlaces(job), n);
    TurnIsValid(job, before);
    hide Orderly, AsidesNamed, LeftoverAside;
    AncestorsAreDirs(End(job.view.world, T2(job), before), e.target, Parent(e.target));
  }

  lemma PlacesOnlyLinks(job: Job)
    requires job.Valid()
    ensures LinksOnly(job.next, LinkPlaces(job))
  {
    PlacesAreLinks(job);
  }

  /** What follows the recopy of the n-th entry. */
  lemma AfterRecopy(job: Job, n: nat, limits: seq<nat>) returns (after: seq<Action>)
    requires |limits| == |job.Removes(job.prev)| && n < |job.next| && job.next[n].how == Copy
    ensures (LinkPlaces(job) + CopyStage(job, true)) + DropsOf(job, limits)
            == LinkPlaces(job) + CopiesUpto(job, true, n) + [DoRecopy(job.next[n])] + after
  {
    hide *;
    var rest := RecopiesFrom(job.next, n + 1);
    CopiesUptoNext(job, true, n);
    RecopiesAre(job, n + 1);
    after := rest + DropsOf(job, limits);
    Shuffled(LinkPlaces(job), CopiesUpto(job, true, n), DoRecopy(job.next[n]), rest, DropsOf(job, limits));
  }

  lemma RecopiesAre(job: Job, n: nat)
    requires n <= |job.next|
    ensures CopyStage(job, true) == RecopyActions(job.next) && CopiesUpto(job, true, n) == RecopyActions(job.next[..n])
  {
  }

  lemma Shuffled<T>(p: seq<T>, u: seq<T>, x: T, rest: seq<T>, d: seq<T>)
    ensures (p + ((u + [x]) + rest)) + d == p + u + [x] + (rest + d)
  {
  }

  lemma ScheduleAt(job: Job, n: nat, limits: seq<nat>, after: seq<Action>)
    requires |limits| == |job.Removes(job.prev)| && n < |job.next|
    requires (LinkPlaces(job) + CopyStage(job, true)) + DropsOf(job, limits)
             == LinkPlaces(job) + CopiesUpto(job, true, n) + [DoRecopy(job.next[n])] + after
    ensures Schedule(job, true, limits)
            == PreActions(job.PreRemoves(job.next))
               + (BackupActions(job.Backups(job.next))
                  + (LinkPlaces(job) + CopiesUpto(job, true, n) + [DoRecopy(job.next[n])] + after))
  {
    ScheduleSplits(job, true, limits);
  }

  lemma Failing(job: Job, limits: seq<nat>, upto: seq<Event>, last: seq<Event>, r: Outcome)
    requires |limits| == |job.Removes(job.prev)| && last <= r.events && !(r == Outcome(last, true))
    requires RunAll(job.view.world, job.view.tree, Schedule(job, true, limits)) == Outcome(upto + r.events, r.done)
    ensures Fails(job, true, limits, upto + last)
  {
    hide RunAll, Schedule;
    if |last| < |r.events| { Longer(upto, last, r.events); }
  }

  lemma CutIsRooted(job: Job, limits: seq<nat>, cut: seq<Event>)
    requires job.Valid() && |limits| == |job.Removes(job.prev)| && Fails(job, true, limits, cut)
    ensures Rooted(Journal(cut))
  {
    hide RunAll, Schedule, Journal;
    RunAllLegal(job.view.world, job.view.tree, Schedule(job, true, limits));
    CutLegal(job.view.tree, cut, RunAll(job.view.world, job.view.tree, Schedule(job, true, limits)).events);
    LegalValid(job.view.tree, cut);
  }

  lemma UnwoundLast(t: Tree, upto: seq<Event>, e: Entry)
    requires var u := Exec(t, upto); ValidTree(u) && Enabled(u, SetAside(e.target, AsideOf(e)))
    requires forall op :: op in Journal(upto) ==> !(op.path <= AsideOf(e))
    requires Rooted(Journal(upto + [SetAside(e.target, AsideOf(e))]))
    ensures AsideOf(e) !in Unwound(t, upto + [SetAside(e.target, AsideOf(e))])
  {
    var x, u, journal := SetAside(e.target, AsideOf(e)), Exec(t, upto), Journal(upto);
    var op := UndoRestoreRename(e.target, AsideOf(e));
    hide AsideOf, Exec, Journal, Apply, UndoOne, Enabled;
    AsideIsEmptied(u, e.target, AsideOf(e));
    JournalOne(t, upto, x);
    JournalOfAside(e);
    ButLast(journal, op);
    assert Rooted(journal) by { assert forall o :: o in journal ==> o in journal + [op]; }
    NeverMade(UndoOne(Apply(u, x), op).tree, journal, AsideOf(e));
  }

  lemma JournalOfAside(e: Entry)
    ensures JournalOf(SetAside(e.target, AsideOf(e))) == [UndoRestoreRename(e.target, AsideOf(e))]
  {
  }

  lemma JournalOne(t: Tree, upto: seq<Event>, x: Event)
    ensures Journal(upto + [x]) == Journal(upto) + JournalOf(x) && Exec(t, upto + [x]) == Apply(Exec(t, upto), x)
  {
    ButLast(upto, x);
  }

  // The exact condition.

  lemma SteadyStands(job: Job)
    requires Runnable(job) && AsidesNamed(job)
    ensures job.Accepted() && (Spared(job) ==> OrderlyFor(job, true))
  {
  }

  lemma Unspared(job: Job) returns (n: nat)
    requires !Spared(job)
    ensures n < |job.next| && LosesAside(job, n)
  {
    hide LosesAside;
    n :| 0 <= n < |job.next| && LosesAside(job, n);
  }

  lemma LostIsNotRestored(t: Tree, r: Tree, x: Path)
    requires x in t && x !in r
    ensures !Restored(t, r)
  {
  }

  // Both conditions together.

  /** The entry lies deeper than directly beneath a link that goes, and its parents are made: at once for a
      symlink, unless an earlier recopy stops the run for a copy. */
  predicate StrandsLink(job: Job, n: nat)
    requires n < |job.next|
  {
    && job.Judge(job.next[n]).Nested? && |job.next[n].target| != |job.Judge(job.next[n]).link| + 1
    && (job.next[n].how == Copy ==> forall m :: 0 <= m < n && job.next[m].how == Copy ==> GoesThrough(job, job.next[m]))
  }

  predicate Unstranded(job: Job) {
    forall n :: 0 <= n < |job.next| ==> !StrandsLink(job, n)
  }

  /** The entry whose action made a parent directory, and what had to go through before it. */
  ghost predicate Reaches(job: Job, m: Path, n: nat) {
    && n < |job.next| && m < job.next[n].target
    && (job.next[n].how == Copy ==> forall k :: 0 <= k < n && job.next[k].how == Copy ==> GoesThrough(job, job.next[k]))
  }

  lemma ParentOfPlace(job: Job, m: Path) returns (n: nat)
    requires job.Valid() && MkParent(m) in RunAll(job.view.world, T2(job), LinkPlaces(job)).events
    ensures Reaches(job, m, n)
  {
    hide T2, RunAll, GoesThrough;
    PlacesAreLinks(job);
    var a := RunAllFrom(job.view.world, T2(job), LinkPlaces(job), MkParent(m));
    n :| 0 <= n < |job.next| && job.next[n] == a.entry;
  }

  lemma {:induction false} ParentOfCopy(job: Job, n: nat, m: Path) returns (k: nat)
    requires Orderly(job) && AsidesNamed(job) && n <= |job.next|
    requires MkParent(m) in RunAll(job.view.world, T2(job), LinkPlaces(job) + CopiesUpto(job, true, n)).events
    ensures Reaches(job, m, k)
  {
    hide T2, RunAll, GoesThrough, CopiesUpto, LinkPlaces, Orderly, AsidesNamed, RunOne, Reaches;
    var w, t := job.view.world, T2(job);
    if n == 0 {
      NoneUpto(job, true);
      EmptyEnd(LinkPlaces(job), CopiesUpto(job, true, 0));
      ValidOf(job);
      k := ParentOfPlace(job, m);
    } else {
      var e, upto := job.next[n - 1], CopiesUpto(job, true, n - 1);
      var before := LinkPlaces(job) + upto;
      CopiesUptoNext(job, true, n - 1);
      EmptyEnd(upto, []);
      if e.how != Copy {
        k := ParentOfCopy(job, n - 1, m);
      } else {
        SnocConcat(LinkPlaces(job), upto, DoRecopy(e));
        RunAllSnoc(w, t, before, DoRecopy(e));
        if MkParent(m) in RunAll(w, t, before).events {
          k := ParentOfCopy(job, n - 1, m);
        } else {
          ParentOfOne(job, n - 1, m);
          k := n - 1;
        }
      }
    }
  }

  lemma ValidOf(job: Job)
    requires Orderly(job)
    ensures job.Valid() && LinksOnly(job.next, LinkPlaces(job))
  {
    PlacesAreLinks(job);
  }

  lemma ParentOfOne(job: Job, n: nat, m: Path)
    requires Orderly(job) && AsidesNamed(job) && n < |job.next| && job.next[n].how == Copy
    requires var before := LinkPlaces(job) + CopiesUpto(job, true, n);
             && RunAll(job.view.world, T2(job), before).done
             && MkParent(m) in RunOne(View(End(job.view.world, T2(job), before), job.view.world), DoRecopy(job.next[n])).events
    ensures Reaches(job, m, n)
  {
    ValidOf(job);
    hide T2, RunAll, GoesThrough, CopiesUpto, LinkPlaces, RunOne, LinksOnly, Orderly, AsidesNamed;
    RunOneFrom(View(End(job.view.world, T2(job), LinkPlaces(job) + CopiesUpto(job, true, n)), job.view.world), DoRecopy(job.next[n]));
    AllWentThrough(job, LinkPlaces(job), n);
  }

  lemma MakesNoParents(w: World, t: Tree, actions: seq<Action>, m: Path)
    requires forall a :: a in actions ==> !a.MakesParents()
    ensures MkParent(m) !in RunAll(w, t, actions).events
  {
    if MkParent(m) in RunAll(w, t, actions).events { var a := RunAllFrom(w, t, actions, MkParent(m)); }
  }

  lemma OthersMakeNone(job: Job, limits: seq<nat>)
    requires |limits| == |job.Removes(job.prev)|
    ensures forall a :: a in PreActions(job.PreRemoves(job.next)) ==> !a.MakesParents()
    ensures forall a :: a in BackupActions(job.Backups(job.next)) ==> !a.MakesParents()
    ensures forall a :: a in DropsOf(job, limits) ==> !a.MakesParents()
  {
    hide Job.Judge, Job.PreRemoves, Job.Backups, Job.Removes;
    forall a | a in PreActions(job.PreRemoves(job.next)) ensures !a.MakesParents() { PreActionIs(job.PreRemoves(job.next), a); }
    forall a | a in BackupActions(job.Backups(job.next)) ensures !a.MakesParents() { BackupActionIs(job.Backups(job.next), a); }
    forall a | a in DropsOf(job, limits) ensures !a.MakesParents() { DropsAre(job, limits, a); }
  }

  lemma ParentIsReached(job: Job, limits: seq<nat>, cut: seq<Event>, m: Path) returns (n: nat)
    requires Orderly(job) && AsidesNamed(job) && |limits| == |job.Removes(job.prev)| && Stops(job, true, limits, cut)
    requires m in Made(cut)
    ensures Reaches(job, m, n)
  {
    ParentIsWhole(cut, RunAll(job.view.world, job.view.tree, Schedule(job, true, limits)).events, m);
    hide *;
    var w, t, drops := job.view.world, T2(job), DropsOf(job, limits);
    var plants := LinkPlaces(job) + CopyStage(job, true);
    var upto := FrontChains(job, plants + drops);
    AfterIs(job, limits);
    OthersMakeNone(job, limits);
    MakesNoParents(w, job.view.tree, PreActions(job.PreRemoves(job.next)), m);
    MakesNoParents(w, T1(job), BackupActions(job.Backups(job.next)), m);
    RunAllConcat(w, t, plants, drops);
    MakesNoParents(w, End(w, t, plants), drops, m);
    JoinEvents(RunAll(w, t, plants), RunAll(w, End(w, t, plants), drops), MkParent(m));
    RecopiesAre(job, |job.next|);
    Whole(job.next);
    n := ParentOfCopy(job, |job.next|, m);
  }

  lemma JoinEvents(first: Outcome, rest: Outcome, e: Event)
    requires e in Join(first, rest).events
    ensures e in first.events || e in rest.events
  {
  }

  lemma ParentIsWhole(cut: seq<Event>, full: seq<Event>, m: Path)
    requires CutOf(cut, full) && m in Made(cut)
    ensures MkParent(m) in full
  {
    assert MkParent(m) in cut;
    var i :| 0 <= i < |cut| && cut[i] == MkParent(m);
    if !(cut <= full) { assert cut[i] == cut[..|cut| - 1][i]; }
    assert full[i] == cut[i];
  }

  lemma AfterIs(job: Job, limits: seq<nat>)
    requires |limits| == |job.Removes(job.prev)|
    ensures Schedule(job, true, limits)
            == PreActions(job.PreRemoves(job.next))
               + (BackupActions(job.Backups(job.next)) + ((LinkPlaces(job) + CopyStage(job, true)) + DropsOf(job, limits)))
  {
    ScheduleSplits(job, true, limits);
  }

  /** Where no link is stranded, none has a made directory beneath it. */
  lemma NoLinkIsStranded(job: Job, limits: seq<nat>, cut: seq<Event>, x: Path)
    requires Runnable(job) && AsidesNamed(job) && Unstranded(job)
    requires |limits| == |job.Removes(job.prev)| && Stops(job, true, limits, cut)
    requires x in job.view.tree && job.view.tree[x].Link?
    ensures !Pinned(x, Made(cut))
  {
    hide Stops, Made, Job.Judge, GoesThrough;
    if m :| m in Made(cut) && x < m {
      var n := ParentIsReached(job, limits, cut, m);
      ReachedStrands(job, m, n, x);
    }
  }

  lemma ReachedStrands(job: Job, m: Path, n: nat, x: Path)
    requires Runnable(job) && Reaches(job, m, n) && x in job.view.tree && job.view.tree[x].Link? && x < m
    ensures StrandsLink(job, n)
  {
    hide Job.Judge, GoesThrough;
    LinkAboveIsTheOne(job, job.next[n], x);
  }

  lemma UnstrandedIsRestored(job: Job, limits: seq<nat>, cut: seq<Event>)
    requires Runnable(job) && AsidesNamed(job) && Unstranded(job) && Spared(job)
    requires |limits| == |job.Removes(job.prev)| && Stops(job, true, limits, cut)
    ensures Restored(job.view.tree, Unwound(job.view.tree, cut))
  {
    SteadyStands(job);
    FailureUnwinds(job, true, limits, cut);
    hide Stops, Unwound, Pinned, Made, Runnable, AsidesNamed, Unstranded;
    forall x | x in job.view.tree && job.view.tree[x].Link? ensures !Pinned(x, Made(cut)) {
      NoLinkIsStranded(job, limits, cut, x);
    }
  }

  // A stranded link is reached.

  /** A place-once position in a list of actions. */
  lemma PlaceAt(job: Job, e: Entry) returns (before: seq<Action>, a: Action, after: seq<Action>)
    requires job.Valid() && e in job.next && e.how == Symlink && Plantable(job, e)
    ensures LinkPlaces(job) == before + [a] + after && a.DoPlace? && a.entry == e
  {
    hide Job.Judge, Plantable;
    a := PlantIsListed(job, e);
    PlantIsAPlant(job.Places(job.next), job.Copies(job.next), a);
    PlaceActionListed(job.Places(job.next), PlaceAction(a.entry, a.kind));
    var places := LinkPlaces(job);
    var i :| 0 <= i < |places| && places[i] == a;
    before, after := places[..i], places[i + 1..];
  }

  lemma Regrouped<T>(a: seq<T>, x: T, b: seq<T>, c: seq<T>, d: seq<T>)
    ensures ((a + [x] + b) + c) + d == a + [x] + (b + (c + d))
  {
  }

  lemma StrandsByLink(job: Job, limits: seq<nat>, e: Entry) returns (cut: seq<Event>)
    requires Runnable(job) && |limits| == |job.Removes(job.prev)|
    requires e in job.next && e.how == Symlink && Plantable(job, e)
    ensures Fails(job, true, limits, cut)
    ensures forall m :: m < e.target ==> m in Exec(job.view.tree, cut)
  {
    hide *;
    var w, drops := job.view.world, DropsOf(job, limits);
    SteadyRuns(job);
    PlacesRun(job);
    var before, a, after := PlaceAt(job, e);
    RunAllConcat(w, T2(job), before + [a], after);
    JoinDone(RunAll(w, T2(job), before + [a]), RunAll(w, End(w, T2(job), before + [a]), after));
    Regrouped(before, a, after, CopyStage(job, true), drops);
    var last := StopsBefore(w, T2(job), before, a, after + (CopyStage(job, true) + drops));
    var upto := FrontChains(job, (LinkPlaces(job) + CopyStage(job, true)) + drops);
    AfterIs(job, limits);
    cut := upto + last;
    ExecConcat(job.view.tree, upto, last);
    Longer(upto, last, RunAll(w, T2(job), (LinkPlaces(job) + CopyStage(job, true)) + drops).events);
    PrefixFails(job, true, limits, cut);
  }

  lemma RecopyOpens(v: View, e: Entry)
    requires ValidTree(v.tree) && e.target !in v.tree && WayClear(v.tree, e.target)
    ensures var begun := [OpenCopy(e.target)] + Parents(v.tree, e.target, |e.target|);
            var r := RunOne(v, DoRecopy(e));
            begun <= r.events && (r.done ==> |begun| < |r.events|)
  {
    ClearIsAbsent(v, e.target);
    hide WayClear, Parents, Lstat;
  }

  lemma StopsOpening(w: World, t: Tree, before: seq<Action>, e: Entry, after: seq<Action>) returns (cut: seq<Event>)
    requires ValidTree(t) && ValidWorld(w) && RunAll(w, t, before).done
    requires e.target !in End(w, t, before) && WayClear(End(w, t, before), e.target)
    ensures var r := RunAll(w, t, before + [DoRecopy(e)] + after); cut <= r.events && !(r == Outcome(cut, true))
    ensures forall m :: m < e.target ==> m in Exec(t, cut)
  {
    var u := End(w, t, before);
    var first, parents := RunAll(w, t, before).events, Parents(u, e.target, |e.target|);
    hide RunAll, End, RunOne, WayClear, Parents, Exec, WithParents;
    RunAllLegal(w, t, before);
    EndIs(w, t, before);
    RunAllSnoc(w, t, before, DoRecopy(e));
    RunAllConcat(w, t, before + [DoRecopy(e)], after);
    RecopyOpens(View(u, w), e);
    OpenedTree(t, first, u, e.target);
    cut := (first + [OpenCopy(e.target)]) + parents;
    SnocConcat(first, [], OpenCopy(e.target));
    assert cut == first + ([OpenCopy(e.target)] + parents);
  }

  lemma OpenedTree(t: Tree, first: seq<Event>, u: Tree, p: Path)
    requires u == Exec(t, first) && ValidTree(u) && WayClear(u, p)
    ensures forall m :: m < p ==> m in Exec(t, (first + [OpenCopy(p)]) + Parents(u, p, |p|))
  {
    ButLast(first, OpenCopy(p));
    assert Exec(t, first + [OpenCopy(p)]) == u;
    ParentsStand(t, first + [OpenCopy(p)], u, p);
  }

  lemma AbsentAtTurn(job: Job, n: nat)
    requires Runnable(job) && AsidesNamed(job) && n < |job.next| && job.next[n].how == Copy && Plantable(job, job.next[n])
    ensures var u := End(job.view.world, T2(job), UptoRecopy(job, n));
            job.next[n].target !in u && WayClear(u, job.next[n].target)
  {
    ValidOf(job);
    hide T2, Plantable, CopiesUpto, RunAll, End, LinkPlaces, WayClear, LinksOnly;
    UptoIs(job, n);
    RecopyAtTurn(job, LinkPlaces(job), n);
    WayIsStillClear(job, LinkPlaces(job), n);
  }

  lemma StrandsByCopy(job: Job, limits: seq<nat>, n: nat) returns (cut: seq<Event>)
    requires Runnable(job) && AsidesNamed(job) && |limits| == |job.Removes(job.prev)| && n < |job.next|
    requires job.next[n].how == Copy && Plantable(job, job.next[n])
    requires forall m :: 0 <= m < n && job.next[m].how == Copy ==> GoesThrough(job, job.next[m])
    ensures Fails(job, true, limits, cut)
    ensures forall m :: m < job.next[n].target ==> m in Exec(job.view.tree, cut)
  {
    SteadyRuns(job);
    hide *;
    var w, e := job.view.world, job.next[n];
    UptoIs(job, n);
    RecopiesRun(job, n);
    AbsentAtTurn(job, n);
    var after := AfterRecopy(job, n, limits);
    ScheduleAt(job, n, limits, after);
    var last := StopsOpening(w, T2(job), UptoRecopy(job, n), e, after);
    var upto := FrontChains(job, UptoRecopy(job, n) + [DoRecopy(e)] + after);
    cut := upto + last;
    ExecConcat(job.view.tree, upto, last);
    Failing(job, limits, upto, last, RunAll(w, T2(job), UptoRecopy(job, n) + [DoRecopy(e)] + after));
  }

  lemma StrandedIsDeeper(job: Job, n: nat) returns (link: Path, m: Path)
    requires job.Valid() && n < |job.next| && StrandsLink(job, n)
    ensures Plantable(job, job.next[n]) && (job.next[n].how == Symlink || job.next[n].how == Copy)
    ensures job.next[n].how == Copy ==>
              forall k :: 0 <= k < n && job.next[k].how == Copy ==> GoesThrough(job, job.next[k])
    ensures link in job.view.tree && job.view.tree[link].Link? && link < m < job.next[n].target
  {
    hide GoesThrough;
    link, m := NestedDeeper(job, job.next[n]);
    JudgeMeans(job, job.next[n]);
  }

  lemma StrandedIsNotRestored(job: Job, limits: seq<nat>, n: nat) returns (cut: seq<Event>)
    requires Runnable(job) && AsidesNamed(job) && Spared(job) && |limits| == |job.Removes(job.prev)|
    requires n < |job.next| && StrandsLink(job, n)
    ensures Fails(job, true, limits, cut) && !Restored(job.view.tree, Unwound(job.view.tree, cut))
  {
    SteadyRuns(job);
    SteadyStands(job);
    hide *;
    var link, m := StrandedIsDeeper(job, n);
    if job.next[n].how == Symlink {
      cut := StrandsByLink(job, limits, job.next[n]);
    } else {
      cut := StrandsByCopy(job, limits, n);
    }
    FailsIsStop(job, true, limits, cut);
    NamedIsFree(job);
    LinkIsPinned(job, true, limits, job.next[n], link, m, cut);
    FailureUnwinds(job, true, limits, cut);
    PinnedIsNotRestored(job.view.tree, Unwound(job.view.tree, cut), Made(cut), link);
  }

  lemma NamedIsFree(job: Job)
    requires AsidesNamed(job)
    ensures AsidesFree(job.next, RECOPY_SUFFIX)
  {
  }

  lemma Stranded(job: Job) returns (n: nat)
    requires !Unstranded(job)
    ensures n < |job.next| && StrandsLink(job, n)
  {
    hide StrandsLink;
    n :| 0 <= n < |job.next| && StrandsLink(job, n);
  }

  /** A failed --recopy run puts everything back at every failure point if and only if it meets neither a
      leftover aside nor an entry deeper than directly beneath a link that goes. */
  lemma RecopyAtomicExactly(job: Job, limits: seq<nat>)
    requires Runnable(job) && AsidesNamed(job) && |limits| == |job.Removes(job.prev)|
    ensures Spared(job) && Unstranded(job) <==>
            forall cut :: Fails(job, true, limits, cut) ==> Restored(job.view.tree, Unwound(job.view.tree, cut))
  {
    hide *;
    if !Spared(job) {
      var n := Unspared(job);
      var cut := AsideIsLost(job, limits, n);
      LostIsNotRestored(job.view.tree, Unwound(job.view.tree, cut), AsideOf(job.next[n]));
    } else if !Unstranded(job) {
      var n := Stranded(job);
      var cut := StrandedIsNotRestored(job, limits, n);
    } else {
      forall cut | Fails(job, true, limits, cut) ensures Restored(job.view.tree, Unwound(job.view.tree, cut)) {
        FailsIsStop(job, true, limits, cut);
        UnstrandedIsRestored(job, limits, cut);
      }
    }
  }

  // A copy over something that appeared after planning.

  lemma CopyTail(v: View, e: Entry) returns (tail: seq<Event>)
    requires WayClear(v.tree, e.target)
    ensures RunCopy(v, e).events == Parents(v.tree, e.target, |e.target|) + tail
    ensures tail == [OpenCopy(e.target)] || tail == [OpenCopy(e.target), Graft(e.target, v.world.content(LinkDest(e)), false)]
  {
    hide Parents, WayClear, Fits;
    tail := if RunCopy(v, e).done then [OpenCopy(e.target), Graft(e.target, v.world.content(LinkDest(e)), false)]
            else [OpenCopy(e.target)];
  }

  lemma TailJournal(p: Path, sub: Tree)
    ensures Journal([OpenCopy(p)]) == [UndoRemoveCopy(p)]
    ensures Journal([OpenCopy(p), Graft(p, sub, false)]) == [UndoRemoveCopy(p)]
  {
    assert [OpenCopy(p)] == [] + [OpenCopy(p)];
    JournalSnoc([], OpenCopy(p));
    assert [OpenCopy(p), Graft(p, sub, false)] == [OpenCopy(p)] + [Graft(p, sub, false)];
    JournalSnoc([OpenCopy(p)], Graft(p, sub, false));
  }

  lemma CopyJournal(v: View, e: Entry)
    requires WayClear(v.tree, e.target)
    ensures Journal(RunCopy(v, e).events) == [UndoRemoveCopy(e.target)]
  {
    hide RunCopy, Parents, WayClear, Journal;
    var tail := CopyTail(v, e);
    ParentsUnjournaled(v.tree, e.target, |e.target|);
    JournalConcat(Parents(v.tree, e.target, |e.target|), tail);
    TailJournal(e.target, v.world.content(LinkDest(e)));
  }

  lemma UndoSingle(u: Tree, p: Path)
    requires p != []
    ensures Rooted([UndoRemoveCopy(p)]) && UndoAll(u, [UndoRemoveCopy(p)]) == Pruned(u, p)
  {
    assert [UndoRemoveCopy(p)][..0] == [];
  }

  lemma MadeOnTheWay(v: View, e: Entry, x: Path)
    requires ValidTree(v.tree) && WayClear(v.tree, e.target) && x in v.tree && v.tree[x].Link?
    ensures !Pinned(x, Made(RunCopy(v, e).events))
  {
    ParentsMade(v.tree, e.target, |e.target|);
    if x < e.target { WayLeaf(v.tree, e.target, x); }
  }

  lemma CopyIsClear(v: View, e: Entry)
    ensures AllClear(RunCopy(v, e).events, Made(RunCopy(v, e).events))
  {
    ParentsMade(v.tree, e.target, |e.target|);
  }

  /** A copy that is unwound leaves nothing at its target: everything is put back if and only if nothing
      stood there when its turn came. */
  lemma CopyIsUndoneExactly(v: View, e: Entry)
    requires ValidTree(v.tree) && ValidWorld(v.world) && WayClear(v.tree, e.target)
    ensures var r := Unwound(v.tree, RunCopy(v, e).events);
            e.target !in r && (Restored(v.tree, r) <==> e.target !in v.tree)
  {
    var es := RunCopy(v, e).events;
    RunCopyLegal(v, e);
    CopyJournal(v, e);
    LegalValid(v.tree, es);
    hide RunCopy, Legal, Lossless;
    var u := Exec(v.tree, es);
    UndoSingle(u, e.target);
    if e.target !in v.tree {
      CopyIsClear(v, e);
      UndoIsExact(v.tree, es);
      forall x | x in v.tree && v.tree[x].Link? ensures !Pinned(x, Made(es)) { MadeOnTheWay(v, e, x); }
    }
  }
}
