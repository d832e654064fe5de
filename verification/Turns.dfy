/** What an action of the copy stage finds when its turn comes. */
module Turns {
  import opened Sequences
  import opened Paths
  import opened Trees
  import opened Manifests
  import opened Planner
  import opened Steps
  import opened Program
  import opened Runs
  import opened Migrations
  import opened PlanFacts
  import opened Stages
  import opened Converge

  /** recopyAll walks the manifest, not the plan. */
  function RecopyActions(m: Manifest): seq<Action> {
    if m == [] then []
    else RecopyActions(m[..|m| - 1]) + (if m[|m| - 1].how == Copy then [DoRecopy(m[|m| - 1])] else [])
  }

  function CopyStage(job: Job, recopy: bool): seq<Action> {
    if recopy then RecopyActions(job.next) else CopyActions(job.Copies(job.next))
  }

  lemma {:induction false} RecopyIs(m: Manifest, a: Action)
    requires a in RecopyActions(m)
    ensures a.DoRecopy? && a.entry in m && a.entry.how == Copy
  {
    if a in RecopyActions(m[..|m| - 1]) { RecopyIs(m[..|m| - 1], a); }
  }

  function AsideOf(e: Entry): Path {
    WithSuffix(e.target, RECOPY_SUFFIX)
  }

  /** The hypotheses of a --recopy run on the names of its asides. */
  ghost predicate AsidesNamed(job: Job) {
    && AsidesFree(job.next, RECOPY_SUFFIX)
    && forall b, e :: b in job.Backups(job.next) && e in job.next && e.how == Copy ==> b.aside != AsideOf(e)
  }

  // What a leftover aside is to a --recopy run.

  /** The copy at the target and what stands at its aside are files or links: the rename would replace
      the latter. */
  predicate LeftoverAside(job: Job, e: Entry) {
    e.how == Copy && !Plantable(job, e) && Overwrites(job.view.tree, e)
  }

  /** The recopy of the entry is not refused for what is on the disk. */
  predicate GoesThrough(job: Job, e: Entry) {
    && job.view.world.probe(LinkDest(e)).Found?
    && (!Plantable(job, e) && e.target in job.view.tree ==> CanRename(job.view.tree, e.target, AsideOf(e)))
  }

  /** A leftover aside is overwritten unless the recopy of an earlier entry stops the run before. */
  predicate LosesAside(job: Job, n: nat)
    requires n < |job.next|
  {
    LeftoverAside(job, job.next[n]) && forall m :: 0 <= m < n && job.next[m].how == Copy ==> GoesThrough(job, job.next[m])
  }

  predicate Spared(job: Job) {
    forall n :: 0 <= n < |job.next| ==> !LosesAside(job, n)
  }

  lemma ClearIsAbsent(v: View, target: Path)
    requires ValidTree(v.tree) && WayClear(v.tree, target) && target !in v.tree
    ensures Lstat(v, target).NotExist?
  {
    var near := Nearest(v.tree, target);
    assert near == target[..|near|];
  }

  // Writes that pass a path by.

  function NodeAt(t: Tree, x: Path): Option<Node> {
    if x in t then Some(t[x]) else None
  }

  predicate PassesBy(e: Event, x: Path) {
    match e
    case BackUp(p, a) => !(p <= x) && !(a <= x)
    case SetAside(p, a) => !(p <= x) && !(a <= x)
    case OpenCopy(_) => true
    case Graft(p, _, _) => !(p <= x)
    case GraftPart(p, _) => !(p <= x)
    case _ => e.path != x
  }

  lemma PassedBy(t: Tree, e: Event, x: Path)
    requires PassesBy(e, x)
    ensures NodeAt(Apply(t, e), x) == NodeAt(t, x)
  {
    if e.BackUp? || e.SetAside? { MovedElsewhere(t, e.path, e.aside); }
    if e.Graft? || e.GraftPart? { GraftedAt(t, e.path, e.sub); }
  }

  lemma {:induction false} AllPassBy(t: Tree, es: seq<Event>, x: Path)
    requires forall e :: e in es ==> PassesBy(e, x)
    ensures NodeAt(Exec(t, es), x) == NodeAt(t, x)
  {
    if es != [] {
      var init, e := es[..|es| - 1], es[|es| - 1];
      assert e in es && forall y :: y in init ==> y in es;
      AllPassBy(t, init, x);
      PassedBy(Exec(t, init), e, x);
    }
  }

  /** A placement, copy or recopy that neither covers `x` nor makes it as a parent. */
  predicate Misses(a: Action, x: Path) {
    && a.MakesParents() && !(a.entry.target <= x) && !(x < a.entry.target)
    && (a.DoRecopy? ==> !(a.AsidePath() <= x))
  }

  lemma MissedByAll(w: World, t: Tree, actions: seq<Action>, x: Path)
    requires forall a :: a in actions ==> Misses(a, x)
    ensures NodeAt(End(w, t, actions), x) == NodeAt(t, x)
  {
    var es := RunAll(w, t, actions).events;
    forall e | e in es ensures PassesBy(e, x) {
      var a := RunAllFrom(w, t, actions, e);
    }
    AllPassBy(t, es, x);
  }

  lemma OthersMiss(next: Manifest, a: Action, e: Entry)
    requires PrefixFree(next) && a.MakesParents() && a.entry in next && e in next && a.entry != e
    requires a.DoRecopy? ==> AsidesFree(next, RECOPY_SUFFIX)
    ensures Misses(a, e.target)
  {
    EntriesApart(next, a.entry, e);
  }

  lemma OthersMissAside(next: Manifest, a: Action, e: Entry)
    requires PrefixFree(next) && AsidesFree(next, RECOPY_SUFFIX)
    requires a.MakesParents() && a.entry in next && e in next && a.entry != e
    ensures Misses(a, AsideOf(e))
  {
    EntriesApart(next, a.entry, e);
    AsideApart(next, RECOPY_SUFFIX, e, a.entry);
  }

  // Runs that meet nothing they would destroy.

  lemma NoDriftSnoc(w: World, t: Tree, init: seq<Action>, a: Action)
    requires NoDrift(w, t, init) && (RunAll(w, t, init).done ==> Undrifted(End(w, t, init), a))
    ensures NoDrift(w, t, init + [a])
  {
    ButLast(init, a);
  }

  lemma {:induction false} NoDriftJoin(w: World, t: Tree, a: seq<Action>, b: seq<Action>)
    requires NoDrift(w, t, a) && (RunAll(w, t, a).done ==> NoDrift(w, End(w, t, a), b))
    ensures NoDrift(w, t, a + b)
    decreases |b|
  {
    if b == [] {
      EmptyEnd(a, b);
    } else {
      var init, last := b[..|b| - 1], b[|b| - 1];
      LastOf(b);
      NoDriftJoin(w, t, a, init);
      RunAllConcat(w, t, a, init);
      if RunAll(w, t, a + init).done { EndConcat(w, t, a, init); }
      NoDriftSnoc(w, t, a + init, last);
      SnocConcat(a, init, last);
    }
  }

  predicate Gentle(a: Action) {
    !a.PreRmDir? && !a.DoCopy? && !a.DoRecopy?
  }

  lemma {:induction false} GentleDoNotDrift(w: World, t: Tree, actions: seq<Action>)
    requires forall a :: a in actions ==> Gentle(a)
    ensures NoDrift(w, t, actions)
  {
    if actions != [] {
      var init, a := actions[..|actions| - 1], actions[|actions| - 1];
      assert a in actions && forall x :: x in init ==> x in actions;
      GentleDoNotDrift(w, t, init);
    }
  }

  /** Placements of symlink entries of next. */
  predicate LinksOnly(next: Manifest, places: seq<Action>) {
    forall a :: a in places ==> a.DoPlace? && a.entry in next && a.entry.how == Symlink
  }

  /** Where the copy stage stands before the n-th entry. */
  function CopiesUpto(job: Job, recopy: bool, n: nat): seq<Action>
    requires n <= |job.next|
  {
    if recopy then RecopyActions(job.next[..n]) else CopyActions(job.Copies(job.next[..n]))
  }

  lemma CopiesUptoIs(job: Job, recopy: bool, n: nat, a: Action)
    requires job.Valid() && PrefixFree(job.next) && n < |job.next| && a in CopiesUpto(job, recopy, n)
    ensures if recopy then a.DoRecopy? else a.DoCopy?
    ensures a.entry in job.next && a.entry != job.next[n]
  {
    if recopy {
      RecopyIs(job.next[..n], a);
    } else {
      CopyActionIs(job.Copies(job.next[..n]), a);
      CopyIsOf(job, job.next[..n], CopyAction(a.entry));
    }
    EarlierIsApart(job.next, n, a.entry);
  }

  lemma CopiesUptoNext(job: Job, recopy: bool, n: nat)
    requires n < |job.next|
    ensures recopy ==> CopiesUpto(job, recopy, n + 1)
                       == CopiesUpto(job, recopy, n) + if job.next[n].how == Copy then [DoRecopy(job.next[n])] else []
    ensures !recopy ==> CopiesUpto(job, recopy, n + 1)
                        == CopiesUpto(job, recopy, n) + if job.CopiesOf(job.next[n]) == [] then [] else [DoCopy(job.next[n])]
  {
    hide Job.Judge, Job.CopiesOf;
    Prefix(job.next, n + 1);
    CopiesOfOne(job, job.next[n]);
    var before := job.Copies(job.next[..n]);
    if job.CopiesOf(job.next[n]) == [] {
      EmptyEnd(before, job.CopiesOf(job.next[n]));
    } else {
      ButLast(before, CopyAction(job.next[n]));
    }
  }

  /** Until the turn of the n-th entry, a copy, nothing happens at its target or at its aside. */
  lemma AtTurn(job: Job, recopy: bool, places: seq<Action>, n: nat)
    requires Orderly(job) && (recopy ==> AsidesNamed(job)) && LinksOnly(job.next, places)
    requires n < |job.next| && job.next[n].how == Copy
    ensures var u := End(job.view.world, T2(job), places + CopiesUpto(job, recopy, n));
            && NodeAt(u, job.next[n].target) == NodeAt(T2(job), job.next[n].target)
            && (recopy ==> NodeAt(u, AsideOf(job.next[n])) == NodeAt(T2(job), AsideOf(job.next[n])))
  {
    hide T2, NodeAt, Misses;
    var e, before := job.next[n], places + CopiesUpto(job, recopy, n);
    forall a | a in before
      ensures Misses(a, e.target) && (recopy ==> Misses(a, AsideOf(e)))
    {
      if a in CopiesUpto(job, recopy, n) { CopiesUptoIs(job, recopy, n, a); }
      OthersMiss(job.next, a, e);
      if recopy { OthersMissAside(job.next, a, e); }
    }
    MissedByAll(job.view.world, T2(job), before, e.target);
    if recopy { MissedByAll(job.view.world, T2(job), before, AsideOf(e)); }
  }

  lemma PlantedCopyIsAbsent(job: Job, e: Entry)
    requires Orderly(job) && e in job.next && e.how == Copy && Plantable(job, e)
    ensures e.target !in T2(job)
  {
    hide T2;
    TargetIsReady(job, e);
    JudgeMeans(job, e);
  }

  lemma TargetAtTwo(job: Job, e: Entry)
    requires Orderly(job) && e in job.next && !Plantable(job, e)
    ensures NodeAt(T2(job), e.target) == NodeAt(job.view.tree, e.target)
  {
    hide T2;
    StageTwo(job);
    NotPreRemoved(job, e);
    WayNotRenamed(job, e, e.target);
  }

  lemma AsideNotPreRemoved(job: Job, e: Entry)
    requires job.Valid() && PrefixFree(job.next) && AsidesFree(job.next, RECOPY_SUFFIX) && e in job.next
    ensures AsideOf(e) !in At(job.PreRemoves(job.next))
  {
    hide ValidTree, ValidWorld, Job.Judge;
    var x := AsideOf(e);
    if x in At(job.PreRemoves(job.next)) {
      var a :| a in job.PreRemoves(job.next) && a.At() == x;
      var f := PreRemoveIsOf(job, job.next, a);
      AskedIsThere(job, f, a);
      assert !(x <= f.target);
      AboveParent(f.target, x);
      PrefixFreeOn(job.next, f, e);
    }
  }

  lemma OffTheAside(next: Manifest, suffix: Name, e: Entry, f: Entry)
    requires PrefixFree(next) && AsidesFree(next, suffix) && AsidesFree(next, RECOPY_SUFFIX) && e in next && f in next
    requires WithSuffix(f.target, suffix) != AsideOf(e)
    ensures !(f.target <= AsideOf(e)) && !(WithSuffix(f.target, suffix) <= AsideOf(e))
  {
    var x, y := AsideOf(e), WithSuffix(f.target, suffix);
    if f.target <= x {
      AboveParent(f.target, x);
      PrefixFreeOn(next, f, e);
    }
    if y <= x { AboveParent(y, x); }
  }

  lemma BackupOffTheAside(job: Job, e: Entry, b: BackupAction)
    requires Orderly(job) && AsidesNamed(job) && e in job.next && e.how == Copy && b in job.Backups(job.next)
    ensures !(b.entry.target <= AsideOf(e)) && !(b.aside <= AsideOf(e))
  {
    hide Job.Judge, Job.Backups, AsidesFree, PrefixFree, AsideOf, ValidTree, ValidWorld, Foreign, Distinct;
    BackupIs(job, b);
    OffTheAside(job.next, job.opts.Suffix(), e, b.entry);
  }

  lemma AsideNotRenamed(job: Job, e: Entry)
    requires Orderly(job) && AsidesNamed(job) && e in job.next && e.how == Copy
    ensures !Renamed(job.Backups(job.next), AsideOf(e))
  {
    hide Orderly, AsidesNamed, AsideOf;
    forall b | b in job.Backups(job.next) ensures !(b.entry.target <= AsideOf(e)) && !(b.aside <= AsideOf(e)) {
      BackupOffTheAside(job, e, b);
    }
  }

  lemma AsideAtTwo(job: Job, e: Entry)
    requires Orderly(job) && AsidesNamed(job) && e in job.next && e.how == Copy
    ensures NodeAt(T2(job), AsideOf(e)) == NodeAt(job.view.tree, AsideOf(e))
  {
    hide T2;
    StageTwo(job);
    AsideNotPreRemoved(job, e);
    AsideNotRenamed(job, e);
  }

  /** What a recopy depends on, at its turn and as planned. */
  lemma RecopyAtTurn(job: Job, places: seq<Action>, n: nat)
    requires Orderly(job) && AsidesNamed(job) && LinksOnly(job.next, places)
    requires n < |job.next| && job.next[n].how == Copy
    ensures var e, u := job.next[n], End(job.view.world, T2(job), places + CopiesUpto(job, true, n));
            && (Overwrites(u, e) <==> LeftoverAside(job, e))
            && (e.target in u <==> !Plantable(job, e) && e.target in job.view.tree)
            && (e.target in u ==> u[e.target] == job.view.tree[e.target])
            && NodeAt(u, AsideOf(e)) == NodeAt(job.view.tree, AsideOf(e))
  {
    hide T2, Plantable;
    var e := job.next[n];
    AtTurn(job, true, places, n);
    AsideAtTwo(job, e);
    if Plantable(job, e) { PlantedCopyIsAbsent(job, e); } else { TargetAtTwo(job, e); }
  }

  /** A recopy that was carried out was not to be refused. */
  lemma WentThrough(job: Job, places: seq<Action>, n: nat)
    requires Orderly(job) && AsidesNamed(job) && LinksOnly(job.next, places)
    requires n < |job.next| && job.next[n].how == Copy
    requires RunOne(View(End(job.view.world, T2(job), places + CopiesUpto(job, true, n)), job.view.world),
                    DoRecopy(job.next[n])).done
    ensures GoesThrough(job, job.next[n])
  {
    hide T2, Plantable, Overwrites;
    var e, u := job.next[n], End(job.view.world, T2(job), places + CopiesUpto(job, true, n));
    RecopyAtTurn(job, places, n);
    if !Plantable(job, e) && e.target in job.view.tree {
      AncestorsAreDirs(job.view.tree, e.target, Parent(e.target));
    }
  }

  /** The run up to the next entry contains the run up to this one, and its recopy. */
  lemma DoneBefore(job: Job, places: seq<Action>, n: nat)
    requires n < |job.next| && RunAll(job.view.world, T2(job), places + CopiesUpto(job, true, n + 1)).done
    ensures RunAll(job.view.world, T2(job), places + CopiesUpto(job, true, n)).done
    ensures job.next[n].how == Copy ==>
              RunOne(View(End(job.view.world, T2(job), places + CopiesUpto(job, true, n)), job.view.world),
                     DoRecopy(job.next[n])).done
  {
    hide T2, CopiesUpto, RunOne;
    var w, e, upto := job.view.world, job.next[n], CopiesUpto(job, true, n);
    CopiesUptoNext(job, true, n);
    if e.how == Copy {
      SnocConcat(places, upto, DoRecopy(e));
      RunAllSnoc(w, T2(job), places + upto, DoRecopy(e));
    } else {
      EmptyEnd(upto, []);
    }
  }

  lemma {:induction false} AllWentThrough(job: Job, places: seq<Action>, n: nat)
    requires Orderly(job) && AsidesNamed(job) && LinksOnly(job.next, places) && n <= |job.next|
    requires RunAll(job.view.world, T2(job), places + CopiesUpto(job, true, n)).done
    ensures forall m :: 0 <= m < n && job.next[m].how == Copy ==> GoesThrough(job, job.next[m])
  {
    hide T2, GoesThrough, CopiesUpto, RunAll, RunOne, LinksOnly, Orderly, AsidesNamed;
    if n > 0 {
      DoneBefore(job, places, n - 1);
      AllWentThrough(job, places, n - 1);
      if job.next[n - 1].how == Copy { WentThrough(job, places, n - 1); }
    }
  }

  lemma {:induction false} CopiesDoNotDrift(job: Job, recopy: bool, places: seq<Action>, n: nat)
    requires Orderly(job) && LinksOnly(job.next, places) && n <= |job.next|
    requires recopy ==> AsidesNamed(job) && Spared(job)
    ensures NoDrift(job.view.world, T2(job), places + CopiesUpto(job, recopy, n))
  {
    hide T2, CopiesUpto, Orderly, AsidesNamed, Spared, Job.CopiesOf;
    var w := job.view.world;
    if n == 0 {
      NoneUpto(job, recopy);
      EmptyEnd(places, CopiesUpto(job, recopy, 0));
      GentleDoNotDrift(w, T2(job), places);
    } else {
      CopiesDoNotDrift(job, recopy, places, n - 1);
      CopiesUptoNext(job, recopy, n - 1);
      var e, upto := job.next[n - 1], CopiesUpto(job, recopy, n - 1);
      EmptyEnd(upto, []);
      if recopy && e.how == Copy {
        if RunAll(w, T2(job), places + upto).done { RecopyMeetsNothing(job, places, n - 1); }
        NoDriftSnoc(w, T2(job), places + upto, DoRecopy(e));
        SnocConcat(places, upto, DoRecopy(e));
      } else if !recopy && job.CopiesOf(e) != [] {
        CopyMeetsNothing(job, places, n - 1);
        NoDriftSnoc(w, T2(job), places + upto, DoCopy(e));
        SnocConcat(places, upto, DoCopy(e));
      }
    }
  }

  lemma NoneUpto(job: Job, recopy: bool)
    ensures CopiesUpto(job, recopy, 0) == []
  {
  }

  lemma RecopyMeetsNothing(job: Job, places: seq<Action>, n: nat)
    requires Orderly(job) && AsidesNamed(job) && Spared(job) && LinksOnly(job.next, places)
    requires n < |job.next| && job.next[n].how == Copy
    requires RunAll(job.view.world, T2(job), places + CopiesUpto(job, true, n)).done
    ensures Undrifted(End(job.view.world, T2(job), places + CopiesUpto(job, true, n)), DoRecopy(job.next[n]))
  {
    hide T2, CopiesUpto, Orderly, AsidesNamed, LeftoverAside, GoesThrough, Overwrites;
    RecopyAtTurn(job, places, n);
    AllWentThrough(job, places, n);
    assert !LosesAside(job, n);
  }

  lemma CopyMeetsNothing(job: Job, places: seq<Action>, n: nat)
    requires Orderly(job) && LinksOnly(job.next, places) && n < |job.next| && job.CopiesOf(job.next[n]) != []
    ensures Undrifted(End(job.view.world, T2(job), places + CopiesUpto(job, false, n)), DoCopy(job.next[n]))
  {
    hide T2, CopiesUpto;
    JudgeMeans(job, job.next[n]);
    AtTurn(job, false, places, n);
    PlantedCopyIsAbsent(job, job.next[n]);
  }

  /** From PreRemove and Backup on, nothing the placements and copies meet is destroyed. */
  lemma CopyStageDoesNotDrift(job: Job, recopy: bool, places: seq<Action>)
    requires Orderly(job) && LinksOnly(job.next, places)
    requires recopy ==> AsidesNamed(job) && Spared(job)
    ensures NoDrift(job.view.world, T2(job), places + CopyStage(job, recopy))
  {
    hide T2;
    Whole(job.next);
    CopiesDoNotDrift(job, recopy, places, |job.next|);
  }

  lemma PlacesAreLinks(job: Job)
    requires job.Valid()
    ensures LinksOnly(job.next, PlaceActions(job.Places(job.next)))
  {
    forall a | a in PlaceActions(job.Places(job.next)) ensures a.DoPlace? && a.entry in job.next && a.entry.how == Symlink {
      PlaceActionIs(job.Places(job.next), a);
      PlaceIsOf(job, job.next, PlaceAction(a.entry, a.kind));
      JudgeMeans(job, a.entry);
    }
  }
}
