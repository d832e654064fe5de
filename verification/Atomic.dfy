/** The stages of one Apply in order, and what a failure anywhere in them leaves behind. */
module Atomic {
  import opened Paths
  import opened Trees
  import opened Manifests
  import opened Planner
  import opened Steps
  import opened Undo
  import opened Program
  import opened Runs
  import opened Migrations
  import opened PlanFacts
  import opened Stages
  import opened Converge
  import opened Turns
  import opened Settle

  /** PreRemove, Backup, Place. */
  function Front(job: Job): seq<Action> {
    PreActions(job.PreRemoves(job.next)) + BackupActions(job.Backups(job.next)) + PlaceActions(job.Places(job.next))
  }

  /** PreRemove, Backup, Place, Copies or recopy, Remove. */
  function Schedule(job: Job, recopy: bool, limits: seq<nat>): seq<Action>
    requires |limits| == |job.Removes(job.prev)|
  {
    Front(job) + CopyStage(job, recopy) + DropsOf(job, limits)
  }

  /** The hypotheses of a run that may recopy. */
  ghost predicate OrderlyFor(job: Job, recopy: bool) {
    Orderly(job) && (recopy ==> AsidesNamed(job) && Spared(job))
  }

  // Every action but the pre-removals and stale removals belongs to an entry of next.

  lemma {:induction false} BackupActionIs(bs: seq<BackupAction>, a: Action)
    requires a in BackupActions(bs)
    ensures a.DoBackup? && BackupAction(a.entry, a.aside) in bs
  {
    if a in BackupActions(bs[..|bs| - 1]) { BackupActionIs(bs[..|bs| - 1], a); }
  }

  lemma {:induction false} PreActionIs(rs: seq<RemoveAction>, a: Action)
    requires a in PreActions(rs)
    ensures a.PreDrop? || a.PreRmDir?
  {
    if a in PreActions(rs[..|rs| - 1]) { PreActionIs(rs[..|rs| - 1], a); }
  }

  lemma {:induction false} DropActionIs(rs: seq<RemoveAction>, limits: seq<nat>, a: Action)
    requires |limits| == |rs| && (forall r :: r in rs ==> r.Unlink?) && a in DropActions(rs, limits)
    ensures a.DoDrop? && Unlink(a.entry) in rs
  {
    var n := |rs| - 1;
    assert rs[n] in rs && (forall r :: r in rs[..n] ==> r in rs);
    if a in DropActions(rs[..n], limits[..n]) { DropActionIs(rs[..n], limits[..n], a); }
  }

  lemma FrontIs(job: Job, a: Action)
    requires job.Valid() && a in Front(job)
    ensures a.PreDrop? || a.PreRmDir? || a.DoBackup? || a.DoPlace?
    ensures a.Claims() ==> a.entry in job.next
    ensures a.DoBackup? ==> a.aside == WithSuffix(a.entry.target, job.opts.Suffix())
  {
    hide Job.Judge, Job.PreRemoves, Job.Backups, Job.Places, Job.BackupOf, Job.PlaceOf;
    if a in PreActions(job.PreRemoves(job.next)) {
      PreActionIs(job.PreRemoves(job.next), a);
    } else if a in BackupActions(job.Backups(job.next)) {
      BackupActionIs(job.Backups(job.next), a);
      BackupIs(job, BackupAction(a.entry, a.aside));
    } else {
      PlaceActionIs(job.Places(job.next), a);
      PlaceIsOf(job, job.next, PlaceAction(a.entry, a.kind));
    }
  }

  lemma CopyStageIs(job: Job, recopy: bool, a: Action)
    requires job.Valid() && a in CopyStage(job, recopy)
    ensures (if recopy then a.DoRecopy? else a.DoCopy?) && a.entry in job.next
  {
    if recopy {
      RecopyIs(job.next, a);
    } else {
      CopyActionIs(job.Copies(job.next), a);
      CopyIsOf(job, job.next, CopyAction(a.entry));
    }
  }

  lemma DropsAre(job: Job, limits: seq<nat>, a: Action)
    requires |limits| == |job.Removes(job.prev)| && a in DropsOf(job, limits)
    ensures a.DoDrop? && a.entry in job.prev && Unlink(a.entry) in job.Removes(job.prev)
  {
    RemovesUnlink(job, job.prev);
    DropActionIs(job.Removes(job.prev), limits, a);
    RemoveIsOf(job, job.prev, Unlink(a.entry));
  }

  lemma ScheduleIs(job: Job, recopy: bool, limits: seq<nat>, a: Action)
    requires job.Valid() && |limits| == |job.Removes(job.prev)| && a in Schedule(job, recopy, limits)
    ensures a.Claims() ==> a.entry in job.next
    ensures a.DoBackup? ==> a.aside == WithSuffix(a.entry.target, job.opts.Suffix())
    ensures a.DoRecopy? ==> recopy
    ensures a.DoDrop? ==> a.entry in job.prev
  {
    if a in Front(job) {
      FrontIs(job, a);
    } else if a in CopyStage(job, recopy) {
      CopyStageIs(job, recopy, a);
    } else {
      DropsAre(job, limits, a);
    }
  }

  lemma ScheduleSpaced(job: Job, recopy: bool, limits: seq<nat>)
    requires OrderlyFor(job, recopy) && |limits| == |job.Removes(job.prev)|
    ensures Spaced(Schedule(job, recopy, limits))
  {
    var actions := Schedule(job, recopy, limits);
    hide Schedule, Job.Judge, ValidTree, ValidWorld, Spared;
    forall a, b | a in actions && b in actions && a.Claims() && b.MakesParents()
      ensures !(a.entry.target < b.entry.target)
      ensures a.RenamesAside() ==> !(a.AsidePath() < b.entry.target)
    {
      ScheduleIs(job, recopy, limits, a);
      ScheduleIs(job, recopy, limits, b);
      if a.entry != b.entry { EntriesApart(job.next, a.entry, b.entry); }
    }
  }

  function AfterPre(job: Job, recopy: bool, limits: seq<nat>): seq<Action>
    requires |limits| == |job.Removes(job.prev)|
  {
    BackupActions(job.Backups(job.next))
    + ((PlaceActions(job.Places(job.next)) + CopyStage(job, recopy)) + DropsOf(job, limits))
  }

  lemma SplitAfterPre(a: seq<Action>, b: seq<Action>, c: seq<Action>, d: seq<Action>, e: seq<Action>)
    ensures (a + b + c) + d + e == a + (b + ((c + d) + e))
  {
  }

  lemma ScheduleSplits(job: Job, recopy: bool, limits: seq<nat>)
    requires |limits| == |job.Removes(job.prev)|
    ensures Schedule(job, recopy, limits) == PreActions(job.PreRemoves(job.next)) + AfterPre(job, recopy, limits)
  {
    SplitAfterPre(PreActions(job.PreRemoves(job.next)), BackupActions(job.Backups(job.next)),
                  PlaceActions(job.Places(job.next)), CopyStage(job, recopy), DropsOf(job, limits));
  }

  lemma BackupsAreGentle(job: Job)
    ensures forall a :: a in BackupActions(job.Backups(job.next)) ==> Gentle(a)
  {
    forall a | a in BackupActions(job.Backups(job.next)) ensures Gentle(a) { BackupActionIs(job.Backups(job.next), a); }
  }

  lemma DropsAreGentle(job: Job, limits: seq<nat>)
    requires |limits| == |job.Removes(job.prev)|
    ensures forall a :: a in DropsOf(job, limits) ==> Gentle(a)
  {
    forall a | a in DropsOf(job, limits) ensures Gentle(a) { DropsAre(job, limits, a); }
  }

  /** No action of a run meets anything it would destroy. */
  lemma ScheduleDoesNotDrift(job: Job, recopy: bool, limits: seq<nat>)
    requires OrderlyFor(job, recopy) && |limits| == |job.Removes(job.prev)|
    ensures NoDrift(job.view.world, job.view.tree, Schedule(job, recopy, limits))
  {
    hide T1, T2, Gentle, NoDrift, RunAll, End, Schedule;
    var w, t := job.view.world, job.view.tree;
    var pre, backups := PreActions(job.PreRemoves(job.next)), BackupActions(job.Backups(job.next));
    var plants, drops := PlaceActions(job.Places(job.next)) + CopyStage(job, recopy), DropsOf(job, limits);
    StageOne(job);
    T2IsEnd(job);
    PlacesAreLinks(job);
    CopyStageDoesNotDrift(job, recopy, PlaceActions(job.Places(job.next)));
    DropsAreGentle(job, limits);
    GentleDoNotDrift(w, End(w, T2(job), plants), drops);
    NoDriftJoin(w, T2(job), plants, drops);
    BackupsAreGentle(job);
    GentleDoNotDrift(w, T1(job), backups);
    NoDriftJoin(w, T1(job), backups, plants + drops);
    NoDriftJoin(w, t, pre, backups + (plants + drops));
    ScheduleSplits(job, recopy, limits);
  }

  lemma T2IsEnd(job: Job)
    ensures T2(job) == End(job.view.world, T1(job), BackupActions(job.Backups(job.next)))
  {
  }

  /** How a run that stops after `cut` looks once unwound. */
  function Unwound(t: Tree, cut: seq<Event>): Tree {
    if Rooted(Journal(cut)) then UndoAll(Exec(t, cut), Journal(cut)) else t
  }

  ghost predicate Stops(job: Job, recopy: bool, limits: seq<nat>, cut: seq<Event>)
    requires |limits| == |job.Removes(job.prev)|
  {
    CutOf(cut, RunAll(job.view.world, job.view.tree, Schedule(job, recopy, limits)).events)
  }

  /** Whatever stage a failure hits: every node is back but for links pinned by a made directory, and
      nothing is new but directories made as parents of targets. */
  lemma FailureUnwinds(job: Job, recopy: bool, limits: seq<nat>, cut: seq<Event>)
    requires OrderlyFor(job, recopy) && |limits| == |job.Removes(job.prev)| && Stops(job, recopy, limits, cut)
    ensures PutBack(job.view.tree, Unwound(job.view.tree, cut), Made(cut))
    ensures forall x :: x in Made(cut) ==> exists e :: e in job.next && x < e.target
  {
    var actions := Schedule(job, recopy, limits);
    ScheduleSpaced(job, recopy, limits);
    ScheduleDoesNotDrift(job, recopy, limits);
    FailedRunIsUndone(job.view.world, job.view.tree, actions, cut);
    forall x | x in Made(cut) ensures exists e :: e in job.next && x < e.target {
      var a := CutFrom(job.view.world, job.view.tree, actions, cut, MkParent(x));
      ScheduleIs(job, recopy, limits, a);
      assert a.entry in job.next;
    }
  }

  /** Every entry nested under a link that is pre-removed is that link's direct child. */
  predicate DirectChildren(job: Job) {
    forall e :: e in job.next && job.Judge(e).Nested? ==> |e.target| == |job.Judge(e).link| + 1
  }

  ghost predicate Restored(t: Tree, r: Tree) {
    forall x :: x in t ==> x in r && r[x] == t[x]
  }

  /** A link that exists strictly above a target is the one the planner found there. */
  lemma LinkAboveIsTheOne(job: Job, e: Entry, x: Path)
    requires job.Valid() && job.Accepted() && e in job.next
    requires x in job.view.tree && job.view.tree[x].Link? && x < e.target
    ensures job.Judge(e) == Nested(x)
  {
    var t := job.view.tree;
    JudgeMeans(job, e);
    if job.Judge(e).Clash? { ConflictIsListed(job, job.next, e); }
    if e.target in t { AncestorsAreDirs(t, e.target, x); }
    if job.Judge(e).Free? { WayLeaf(t, e.target, x); }
    if job.Judge(e).Nested? {
      var link := job.Judge(e).link;
      SameLink(t, x, link, e.target);
    }
  }

  lemma SameLink(t: Tree, x: Path, y: Path, z: Path)
    requires ValidTree(t) && x in t && y in t && t[x].Link? && t[y].Link? && x <= z && y <= z
    ensures x == y
  {
    Comparable(x, y, z);
    NothingBeneath(t, x);
    NothingBeneath(t, y);
    assert x <= y ==> x == y || x < y;
    assert y <= x ==> x == y || y < x;
  }

  /** With direct children only, nothing is made beneath a link. */
  lemma NoLinkIsPinned(job: Job, made: set<Path>, x: Path)
    requires job.Valid() && job.Accepted() && DirectChildren(job)
    requires forall m :: m in made ==> exists e :: e in job.next && m < e.target
    requires x in job.view.tree && job.view.tree[x].Link?
    ensures !Pinned(x, made)
  {
    hide Job.Judge;
    if Pinned(x, made) {
      var m :| m in made && x < m;
      var e :| e in job.next && m < e.target;
      LinkAboveIsTheOne(job, e, x);
    }
  }

  lemma DirectChildrenSuffice(job: Job, recopy: bool, limits: seq<nat>, cut: seq<Event>)
    requires OrderlyFor(job, recopy) && job.Accepted() && DirectChildren(job)
    requires |limits| == |job.Removes(job.prev)| && Stops(job, recopy, limits, cut)
    ensures Restored(job.view.tree, Unwound(job.view.tree, cut))
  {
    FailureUnwinds(job, recopy, limits, cut);
    hide Job.Judge, Stops, Unwound, DirectChildren, Pinned, Made;
    var t := job.view.tree;
    forall x | x in t && t[x].Link? ensures !Pinned(x, Made(cut)) { NoLinkIsPinned(job, Made(cut), x); }
  }

  /** A path no claim covers comes to exist only by being made as a parent. */
  lemma {:induction false} AppearsAsParent(t: Tree, es: seq<Event>, m: Path)
    requires ValidTree(t) && Legal(t, es) && m !in t && m in Exec(t, es)
    requires forall e :: e in es && !e.MkParent? && !e.Drop? && !e.RmDir? ==>
               !(e.path <= m) && ((e.BackUp? || e.SetAside?) ==> !(e.aside <= m))
    ensures MkParent(m) in es
    decreases |es|
  {
    var init, e := es[..|es| - 1], es[|es| - 1];
    assert e in es;
    if m in Exec(t, init) {
      AppearsAsParent(t, init, m);
    } else {
      LegalValid(t, init);
      var u := Exec(t, init);
      if e.BackUp? || e.SetAside? {
        MovedElsewhere(u, e.path, e.aside);
      } else if e.Graft? || e.GraftPart? {
        GraftedAt(u, e.path, e.sub);
      }
    }
  }

  lemma ScheduleWithoutRecopy(job: Job, limits: seq<nat>)
    requires |limits| == |job.Removes(job.prev)|
    ensures Schedule(job, false, limits) ==
            PreActions(job.PreRemoves(job.next))
            + (BackupActions(job.Backups(job.next)) + (PlantActions(job) + DropsOf(job, limits)))
  {
    ScheduleSplits(job, false, limits);
  }

  lemma Regroup<T>(x: seq<T>, y: seq<T>, z: seq<T>, u: seq<T>)
    ensures x + (y + (z + u)) == (x + (y + z)) + u
  {
  }

  /** Three stages that go through, and what follows them. */
  lemma ThreeStages(w: World, t: Tree, t1: Tree, t2: Tree, t3: Tree,
                    a: seq<Action>, b: seq<Action>, c: seq<Action>, d: seq<Action>) returns (upto: seq<Event>)
    requires RunAll(w, t, a).done && End(w, t, a) == t1
    requires RunAll(w, t1, b).done && End(w, t1, b) == t2
    requires RunAll(w, t2, c).done && End(w, t2, c) == t3
    ensures Exec(t, upto) == t3
    ensures upto == RunAll(w, t, a).events + (RunAll(w, t1, b).events + RunAll(w, t2, c).events)
    ensures RunAll(w, t, a + (b + (c + d))) == Outcome(upto + RunAll(w, t3, d).events, RunAll(w, t3, d).done)
  {
    var x, y, z := RunAll(w, t, a).events, RunAll(w, t1, b).events, RunAll(w, t2, c).events;
    upto := x + (y + z);
    ExecConcat(t, x, y + z);
    ExecConcat(t1, y, z);
    RunAllConcat(w, t, a, b + (c + d));
    RunAllConcat(w, t1, b, c + d);
    RunAllConcat(w, t2, c, d);
    Regroup(x, y, z, RunAll(w, t3, d).events);
  }

  lemma ChainPrefix(job: Job, limits: seq<nat>) returns (upto: seq<Event>)
    requires Runnable(job) && |limits| == |job.Removes(job.prev)|
    ensures Exec(job.view.tree, upto) == T4(job)
    ensures upto == RunAll(job.view.world, job.view.tree, PreActions(job.PreRemoves(job.next))).events
                    + (RunAll(job.view.world, T1(job), BackupActions(job.Backups(job.next))).events
                       + RunAll(job.view.world, T2(job), PlantActions(job)).events)
    ensures var last := RunAll(job.view.world, T4(job), DropsOf(job, limits));
            RunAll(job.view.world, job.view.tree, Schedule(job, false, limits)) == Outcome(upto + last.events, last.done)
  {
    ScheduleWithoutRecopy(job, limits);
    StageOne(job);
    StageTwo(job);
    StageFour(job);
    upto := ThreeStages(job.view.world, job.view.tree, T1(job), T2(job), T4(job), PreActions(job.PreRemoves(job.next)),
                        BackupActions(job.Backups(job.next)), PlantActions(job), DropsOf(job, limits));
  }

  /** The run goes through its stages, ending each where the next begins. */
  lemma StagesChain(job: Job, limits: seq<nat>)
    requires Steady(job) && |limits| == |job.Removes(job.prev)|
    ensures var r := RunAll(job.view.world, job.view.tree, Schedule(job, false, limits));
            r.done && Exec(job.view.tree, r.events) == T5(job, limits)
  {
    var upto := ChainPrefix(job, limits);
    StageFive(job, limits);
    ExecConcat(job.view.tree, upto, RunAll(job.view.world, T4(job), DropsOf(job, limits)).events);
  }

  lemma ClaimIsOffTheWay(job: Job, recopy: bool, limits: seq<nat>, e: Entry, m: Path, cut: seq<Event>, x: Event)
    requires Orderly(job) && (recopy ==> AsidesFree(job.next, RECOPY_SUFFIX))
    requires |limits| == |job.Removes(job.prev)| && Stops(job, recopy, limits, cut)
    requires e in job.next && m < e.target
    requires x in cut && !x.MkParent? && !x.Drop? && !x.RmDir?
    ensures !(x.path <= m) && ((x.BackUp? || x.SetAside?) ==> !(x.aside <= m))
  {
    var actions := Schedule(job, recopy, limits);
    var b := CutFrom(job.view.world, job.view.tree, actions, cut, x);
    hide From, RunAll, Schedule;
    ClaimOf(x, b);
    ScheduleIs(job, recopy, limits, b);
    if b.entry != e { EntriesApart(job.next, b.entry, e); }
    assert !(WithSuffix(b.entry.target, job.opts.Suffix()) <= e.target);
    assert recopy ==> !(WithSuffix(b.entry.target, RECOPY_SUFFIX) <= e.target);
  }

  lemma NothingClaimsTheWay(job: Job, recopy: bool, limits: seq<nat>, e: Entry, m: Path, cut: seq<Event>)
    requires Orderly(job) && (recopy ==> AsidesFree(job.next, RECOPY_SUFFIX))
    requires |limits| == |job.Removes(job.prev)| && Stops(job, recopy, limits, cut)
    requires e in job.next && m < e.target
    ensures forall x :: x in cut && !x.MkParent? && !x.Drop? && !x.RmDir? ==>
              !(x.path <= m) && ((x.BackUp? || x.SetAside?) ==> !(x.aside <= m))
  {
    forall x | x in cut && !x.MkParent? && !x.Drop? && !x.RmDir?
      ensures !(x.path <= m) && ((x.BackUp? || x.SetAside?) ==> !(x.aside <= m))
    {
      ClaimIsOffTheWay(job, recopy, limits, e, m, cut, x);
    }
  }

  /** The way down to a planted target was made by the run if it was not there. */
  lemma WayIsMade(job: Job, recopy: bool, limits: seq<nat>, e: Entry, m: Path, cut: seq<Event>)
    requires Orderly(job) && (recopy ==> AsidesFree(job.next, RECOPY_SUFFIX))
    requires |limits| == |job.Removes(job.prev)| && Stops(job, recopy, limits, cut)
    requires e in job.next && m < e.target && m !in job.view.tree && m in Exec(job.view.tree, cut)
    ensures m in Made(cut)
  {
    hide RunAll, Schedule, Job.Judge;
    RunAllLegal(job.view.world, job.view.tree, Schedule(job, recopy, limits));
    CutLegal(job.view.tree, cut, RunAll(job.view.world, job.view.tree, Schedule(job, recopy, limits)).events);
    NothingClaimsTheWay(job, recopy, limits, e, m, cut);
    AppearsAsParent(job.view.tree, cut, m);
  }

  lemma FirstBelow(link: Path, target: Path)
    requires link < target && |target| != |link| + 1
    ensures link < target[..|link| + 1] < target
  {
  }

  /** A run that ended in a failure, before it came through its stages. */
  ghost predicate Fails(job: Job, recopy: bool, limits: seq<nat>, cut: seq<Event>)
    requires |limits| == |job.Removes(job.prev)|
  {
    && Stops(job, recopy, limits, cut)
    && !(RunAll(job.view.world, job.view.tree, Schedule(job, recopy, limits)) == Outcome(cut, true))
  }

  /** The writes of a placement begin with its parents and do not end there. */
  lemma ParentsFirst(v: View, a: Action)
    requires (a.DoPlace? || a.DoCopy?) && RunOne(v, a).done
    ensures WayClear(v.tree, a.entry.target)
    ensures var parents := Parents(v.tree, a.entry.target, |a.entry.target|);
            parents <= RunOne(v, a).events && |parents| < |RunOne(v, a).events|
  {
    hide WayClear, Parents, Fits;
  }

  /** Once the parents are made, every ancestor of the target stands. */
  lemma ParentsStand(t: Tree, first: seq<Event>, u: Tree, p: Path)
    requires u == Exec(t, first) && ValidTree(u) && WayClear(u, p)
    ensures Exec(t, first + Parents(u, p, |p|)) == WithParents(u, p, |p|)
    ensures forall m :: m < p ==> m in WithParents(u, p, |p|)
  {
    ParentsRun(u, p, |p|);
    ExecConcat(t, first, Parents(u, p, |p|));
    forall m | m < p ensures m in WithParents(u, p, |p|) { assert m == p[..|m|]; }
  }

  lemma PartOfRun(first: seq<Event>, parents: seq<Event>, last: seq<Event>, rest: seq<Event>)
    requires parents <= last && |parents| < |last|
    ensures first + parents <= (first + last) + rest && |first + parents| < |(first + last) + rest|
  {
  }

  lemma RunsOn(w: World, t: Tree, before: seq<Action>, a: Action, after: seq<Action>) returns (rest: seq<Event>)
    requires RunAll(w, t, before + [a]).done
    ensures RunAll(w, t, before).done && RunOne(View(End(w, t, before), w), a).done
    ensures RunAll(w, t, before + [a] + after).events
            == (RunAll(w, t, before).events + RunOne(View(End(w, t, before), w), a).events) + rest
  {
    hide RunAll, RunOne;
    RunAllSnoc(w, t, before, a);
    RunAllConcat(w, t, before + [a], after);
    rest := RunAll(w, End(w, t, before + [a]), after).events;
  }

  /** A run that stops once the parents of a placement are made. */
  lemma StopsBefore(w: World, t: Tree, before: seq<Action>, a: Action, after: seq<Action>) returns (cut: seq<Event>)
    requires ValidTree(t) && ValidWorld(w) && (a.DoPlace? || a.DoCopy?) && RunAll(w, t, before + [a]).done
    ensures var es := RunAll(w, t, before + [a] + after).events; cut <= es && |cut| < |es|
    ensures forall m :: m < a.entry.target ==> m in Exec(t, cut)
  {
    hide *;
    var u, p := End(w, t, before), a.entry.target;
    RunAllLegal(w, t, before);
    var rest := RunsOn(w, t, before, a, after);
    ParentsFirst(View(u, w), a);
    EndIs(w, t, before);
    ParentsStand(t, RunAll(w, t, before).events, u, p);
    cut := RunAll(w, t, before).events + Parents(u, p, |p|);
    PartOfRun(RunAll(w, t, before).events, Parents(u, p, |p|), RunOne(View(u, w), a).events, rest);
  }

  lemma EndIs(w: World, t: Tree, actions: seq<Action>)
    ensures End(w, t, actions) == Exec(t, RunAll(w, t, actions).events)
  {
  }

  /** Two stages that go through, and what follows them. */
  lemma TwoStages(w: World, t: Tree, t1: Tree, t2: Tree, a: seq<Action>, b: seq<Action>, rest: seq<Action>)
    returns (upto: seq<Event>)
    requires RunAll(w, t, a).done && End(w, t, a) == t1
    requires RunAll(w, t1, b).done && End(w, t1, b) == t2
    ensures Exec(t, upto) == t2 && upto == RunAll(w, t, a).events + RunAll(w, t1, b).events
    ensures RunAll(w, t, a + (b + rest)) == Outcome(upto + RunAll(w, t2, rest).events, RunAll(w, t2, rest).done)
  {
    var x, y, z := RunAll(w, t, a).events, RunAll(w, t1, b).events, RunAll(w, t2, rest).events;
    hide Exec, RunAll;
    upto := x + y;
    ExecConcat(t, x, y);
    RunAllConcat(w, t, a, b + rest);
    RunAllConcat(w, t1, b, rest);
    assert x + (y + z) == upto + z;
  }

  /** PreRemove and Backup, and what follows them. */
  lemma FrontChains(job: Job, rest: seq<Action>) returns (upto: seq<Event>)
    requires Orderly(job)
    ensures Exec(job.view.tree, upto) == T2(job)
    ensures upto == RunAll(job.view.world, job.view.tree, PreActions(job.PreRemoves(job.next))).events
                    + RunAll(job.view.world, T1(job), BackupActions(job.Backups(job.next))).events
    ensures RunAll(job.view.world, job.view.tree,
                   PreActions(job.PreRemoves(job.next)) + (BackupActions(job.Backups(job.next)) + rest))
            == Outcome(upto + RunAll(job.view.world, T2(job), rest).events, RunAll(job.view.world, T2(job), rest).done)
  {
    hide T1, T2, RunAll, End, Exec, PreActions, BackupActions;
    StageOne(job);
    StageTwo(job);
    T2IsEnd(job);
    upto := TwoStages(job.view.world, job.view.tree, T1(job), T2(job), PreActions(job.PreRemoves(job.next)),
                      BackupActions(job.Backups(job.next)), rest);
  }

  lemma PlantAt(job: Job, e: Entry) returns (before: seq<Action>, a: Action, after: seq<Action>)
    requires job.Valid() && e in job.next && Plantable(job, e)
    ensures PlantActions(job) == before + [a] + after && Plants(a) && a.entry == e
  {
    hide Job.Judge, Plantable;
    var plants := PlantActions(job);
    a := PlantIsListed(job, e);
    var i :| 0 <= i < |plants| && plants[i] == a;
    before, after := plants[..i], plants[i + 1..];
  }

  lemma Longer<T>(upto: seq<T>, cut: seq<T>, all: seq<T>)
    requires cut <= all && |cut| < |all|
    ensures upto + cut <= upto + all && |upto + cut| < |upto + all|
  {
  }

  lemma Nearer<T>(a: seq<T>, x: T, b: seq<T>, c: seq<T>)
    ensures (a + [x] + b) + c == a + [x] + (b + c)
  {
  }

  /** A run can fail with the way to a target made and the target not yet placed. */
  lemma FailsBefore(job: Job, limits: seq<nat>, e: Entry) returns (cut: seq<Event>)
    requires Runnable(job) && |limits| == |job.Removes(job.prev)| && e in job.next && Plantable(job, e)
    ensures Fails(job, false, limits, cut)
    ensures forall m :: m < e.target ==> m in Exec(job.view.tree, cut)
  {
    hide *;
    var w, drops := job.view.world, DropsOf(job, limits);
    SteadyRuns(job);
    var before, a, after := PlantAt(job, e);
    PlantsAre(a);
    RunAllConcat(w, T2(job), before + [a], after);
    JoinDone(RunAll(w, T2(job), before + [a]), RunAll(w, End(w, T2(job), before + [a]), after));
    Nearer(before, a, after, drops);
    var last := StopsBefore(w, T2(job), before, a, after + drops);
    var upto := FrontChains(job, PlantActions(job) + drops);
    ScheduleWithoutRecopy(job, limits);
    cut := upto + last;
    ExecConcat(job.view.tree, upto, last);
    Longer(upto, last, RunAll(w, T2(job), PlantActions(job) + drops).events);
    PrefixFails(job, false, limits, cut);
  }

  lemma PlantsAre(a: Action)
    requires Plants(a)
    ensures a.DoPlace? || a.DoCopy?
  {
  }

  lemma JoinDone(first: Outcome, rest: Outcome)
    ensures Join(first, rest).done ==> first.done && rest.done
  {
  }

  lemma PrefixFails(job: Job, recopy: bool, limits: seq<nat>, cut: seq<Event>)
    requires |limits| == |job.Removes(job.prev)|
    requires var es := RunAll(job.view.world, job.view.tree, Schedule(job, recopy, limits)).events;
             cut <= es && |cut| < |es|
    ensures Fails(job, recopy, limits, cut)
  {
    hide RunAll, Schedule;
  }

  lemma SteadyRuns(job: Job)
    requires Runnable(job)
    ensures Orderly(job) && job.Valid() && ValidWorld(job.view.world) && ValidTree(T2(job))
    ensures RunAll(job.view.world, T2(job), PlantActions(job)).done
  {
    StageTwo(job);
    StageFour(job);
  }

  lemma NestedDeeper(job: Job, e: Entry) returns (link: Path, m: Path)
    requires job.Valid() && job.Judge(e).Nested? && |e.target| != |job.Judge(e).link| + 1
    ensures Plantable(job, e)
    ensures link in job.view.tree && job.view.tree[link].Link? && link < m < e.target
  {
    JudgeMeans(job, e);
    link := job.Judge(e).link;
    m := e.target[..|link| + 1];
    FirstBelow(link, e.target);
  }

  lemma PinnedIsNotRestored(t: Tree, r: Tree, made: set<Path>, link: Path)
    requires PutBack(t, r, made) && link in t && t[link].Link? && Pinned(link, made)
    ensures !Restored(t, r)
  {
  }

  /** An entry nested deeper than directly beneath a link: a failure leaves the link a directory. */
  lemma DeeperChildIsNotUndone(job: Job, limits: seq<nat>, e: Entry) returns (cut: seq<Event>)
    requires Runnable(job) && |limits| == |job.Removes(job.prev)|
    requires e in job.next && job.Judge(e).Nested? && |e.target| != |job.Judge(e).link| + 1
    ensures Fails(job, false, limits, cut) && !Restored(job.view.tree, Unwound(job.view.tree, cut))
  {
    SteadyRuns(job);
    hide *;
    var link, m := NestedDeeper(job, e);
    cut := FailsBefore(job, limits, e);
    FailsIsStop(job, false, limits, cut);
    LinkIsPinned(job, false, limits, e, link, m, cut);
    StandsWithoutRecopy(job);
    FailureUnwinds(job, false, limits, cut);
    PinnedIsNotRestored(job.view.tree, Unwound(job.view.tree, cut), Made(cut), link);
  }

  lemma FailsIsStop(job: Job, recopy: bool, limits: seq<nat>, cut: seq<Event>)
    requires |limits| == |job.Removes(job.prev)| && Fails(job, recopy, limits, cut)
    ensures Stops(job, recopy, limits, cut)
  {
  }

  lemma StandsWithoutRecopy(job: Job)
    requires Orderly(job)
    ensures OrderlyFor(job, false)
  {
  }

  lemma LinkIsPinned(job: Job, recopy: bool, limits: seq<nat>, e: Entry, link: Path, m: Path, cut: seq<Event>)
    requires Orderly(job) && (recopy ==> AsidesFree(job.next, RECOPY_SUFFIX))
    requires |limits| == |job.Removes(job.prev)| && Stops(job, recopy, limits, cut) && e in job.next
    requires link in job.view.tree && job.view.tree[link].Link? && link < m < e.target && m in Exec(job.view.tree, cut)
    ensures Pinned(link, Made(cut))
  {
    NothingBeneath(job.view.tree, link);
    hide *;
    WayIsMade(job, recopy, limits, e, m, cut);
    PinnedBy(link, m, Made(cut));
  }

  lemma PinnedBy(link: Path, m: Path, made: set<Path>)
    requires m in made && link < m
    ensures Pinned(link, made)
  {
  }

  /** The undo journal makes a failed run atomic exactly when every entry nested under a pre-removed
      link is its direct child: a deeper one leaves some failure point from which the link does not
      come back. */
  lemma AtomicExactly(job: Job, limits: seq<nat>)
    requires Runnable(job) && |limits| == |job.Removes(job.prev)|
    ensures DirectChildren(job) <==>
            forall cut :: Fails(job, false, limits, cut) ==> Restored(job.view.tree, Unwound(job.view.tree, cut))
  {
    if DirectChildren(job) {
      forall cut | Fails(job, false, limits, cut)
        ensures Restored(job.view.tree, Unwound(job.view.tree, cut))
      {
        DirectChildrenSuffice(job, false, limits, cut);
      }
    } else {
      var e :| e in job.next && job.Judge(e).Nested? && |e.target| != |job.Judge(e).link| + 1;
      var cut := DeeperChildIsNotUndone(job, limits, e);
    }
  }
}
