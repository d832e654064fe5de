/** Where a successful run without --recopy ends. */
module Converge {
  import opened Sequences
  import opened Paths
  import opened Trees
  import opened Manifests
  import opened Planner
  import opened Program
  import opened Runs
  import opened Migrations
  import opened PlanFacts
  import opened Stages

  /** No `<target>.<suffix>` is a target or lies on the way to one. */
  ghost predicate AsidesFree(next: Manifest, suffix: Name) {
    forall e, f :: e in next && f in next ==> !(WithSuffix(e.target, suffix) <= f.target)
  }

  /** What the engine takes for granted about the manifest it places. */
  ghost predicate Orderly(job: Job) {
    job.Valid() && PrefixFree(job.next) && AsidesFree(job.next, job.opts.Suffix())
  }

  /** What it takes for granted where it removes. */
  ghost predicate Standing(job: Job) {
    Orderly(job) && Distinct(job.prev) && forall pe :: pe in job.prev ==> Foreign(job.view, pe)
  }

  /** A plan whose placements can be carried out. */
  ghost predicate Runnable(job: Job) {
    Orderly(job) && job.Accepted() && SourcesExist(job)
  }

  function PlantActions(job: Job): seq<Action> {
    PlaceActions(job.Places(job.next)) + CopyActions(job.Copies(job.next))
  }

  predicate SourcesExist(job: Job) {
    forall c :: c in job.Copies(job.next) ==> job.view.world.probe(LinkDest(c.entry)).Found?
  }

  /** No target that next drops lies strictly beneath a copy target. */
  predicate Uncrossed(job: Job) {
    forall e, pe :: e in job.next && e.how == Copy && pe in job.prev && pe.target !in job.NextBy() ==>
      !(e.target < pe.target)
  }

  function T1(job: Job): Tree { Cut(job.view.tree, At(job.PreRemoves(job.next))) }

  function T2(job: Job): Tree { End(job.view.world, T1(job), BackupActions(job.Backups(job.next))) }

  function T4(job: Job): Tree { End(job.view.world, T2(job), PlantActions(job)) }

  function DropsOf(job: Job, limits: seq<nat>): seq<Action>
    requires |limits| == |job.Removes(job.prev)|
  {
    RemovesUnlink(job, job.prev);
    DropActions(job.Removes(job.prev), limits)
  }

  lemma {:induction false} RemovesUnlink(job: Job, m: Manifest)
    ensures forall r :: r in job.Removes(m) ==> r.Unlink?
  {
    forall r | r in job.Removes(m) ensures r.Unlink? { RemoveIsOf(job, m, r); }
  }

  // Stage 1: PreRemove.

  lemma StageOne(job: Job)
    requires job.Valid() && PrefixFree(job.next)
    ensures var pre := PreActions(job.PreRemoves(job.next));
            && RunAll(job.view.world, job.view.tree, pre).done
            && End(job.view.world, job.view.tree, pre) == T1(job)
            && NoDrift(job.view.world, job.view.tree, pre)
            && ValidTree(T1(job))
  {
    var pre := PreActions(job.PreRemoves(job.next));
    assert job.next[..|job.next|] == job.next;
    PreRemovesOrdered(job, |job.next|);
    OrderedRuns(job.view.world, job.view.tree, job.PreRemoves(job.next));
    RunAllLegal(job.view.world, job.view.tree, pre);
  }

  lemma T1Valid(job: Job)
    requires job.Valid() && PrefixFree(job.next)
    ensures ValidTree(T1(job))
  {
    StageOne(job);
  }

  lemma InNextBy(job: Job, e: Entry)
    requires e in job.next
    ensures e.target in job.NextBy()
  {
  }

  /** Only a migrated or converted target is pre-removed itself. */
  lemma NotPreRemoved(job: Job, e: Entry)
    requires job.Valid() && PrefixFree(job.next) && e in job.next
    requires !job.Judge(e).Migrate? && !job.Judge(e).Converted?
    ensures e.target !in At(job.PreRemoves(job.next))
  {
    if e.target in At(job.PreRemoves(job.next)) {
      var a :| a in job.PreRemoves(job.next) && a.At() == e.target;
      var f := PreRemoveIsOf(job, job.next, a);
      AskedIsThere(job, f, a);
      InNextBy(job, e);
      if f.target <= e.target { PrefixFreeOn(job.next, f, e); }
    }
  }

  /** Nothing beneath a backed-up target is pre-removed. */
  lemma NotPreRemovedUnder(job: Job, e: Entry, q: Path)
    requires job.Valid() && PrefixFree(job.next) && e in job.next && job.Judge(e).Aside? && e.target <= q
    ensures q !in At(job.PreRemoves(job.next))
  {
    if q in At(job.PreRemoves(job.next)) {
      var a :| a in job.PreRemoves(job.next) && a.At() == q;
      var f := PreRemoveIsOf(job, job.next, a);
      AskedIsThere(job, f, a);
      if job.Judge(f).Nested? {
        PrefixFreeOn(job.next, e, f);
      } else if job.Judge(f).Converted? {
        PrefixFreeOn(job.next, e, f);
      } else {
        Comparable(e.target, f.target, q);
        if e.target <= f.target { PrefixFreeOn(job.next, e, f); } else { PrefixFreeOn(job.next, f, e); }
      }
    }
  }

  /** An ancestor link that an entry lies under is pre-removed. */
  lemma NestedLinkGoes(job: Job, e: Entry)
    requires job.Valid() && PrefixFree(job.next) && e in job.next && job.Judge(e).Nested?
    ensures job.Judge(e).link in At(job.PreRemoves(job.next))
  {
    var link := job.Judge(e).link;
    JudgeMeans(job, e);
    MarkIsListed(job, job.next, e, link);
    MarkedIsPreRemoved(job, job.next, link);
    if link !in At(job.PreRemoves(job.next)) {
      var f :| f in job.next && Sweeps(job, f) && f.target <= link;
      assert f.target <= e.target;
      PrefixFreeOn(job.next, f, e);
    }
  }

  lemma {:induction false} PreRemoveOfListed(job: Job, n: nat, k: nat)
    requires n < k <= |job.next|
    ensures forall a :: a in job.PreRemoveOf(job.next[n], job.Marks(job.next[..n])) ==> a in job.PreRemoves(job.next[..k])
    decreases k
  {
    hide Job.Judge, Job.PreRemoveOf, Job.Marks;
    Prefix(job.next, k);
    if n < k - 1 { PreRemoveOfListed(job, n, k - 1); }
  }

  lemma ConvertedIsUnmarked(job: Job, n: nat)
    requires job.Valid() && PrefixFree(job.next) && n < |job.next| && job.Judge(job.next[n]).Converted?
    ensures job.next[n].target !in job.Marks(job.next[..n])
  {
    var e := job.next[n];
    InNextBy(job, e);
    if e.target in job.Marks(job.next[..n]) {
      var f := MarkIsOf(job, job.next[..n], e.target);
      EarlierIsApart(job.next, n, f);
      JudgeMeans(job, f);
      if job.Judge(f).Migrate? { MigrateDirFacts(job, f.target); }
    }
  }

  lemma MigratedOrConvertedGoes(job: Job, e: Entry)
    requires job.Valid() && PrefixFree(job.next) && e in job.next
    requires job.Judge(e).Migrate? || job.Judge(e).Converted?
    ensures e.target in At(job.PreRemoves(job.next))
  {
    var n :| 0 <= n < |job.next| && job.next[n] == e;
    JudgeMeans(job, e);
    PreRemoveOfListed(job, n, |job.next|);
    assert job.next[..|job.next|] == job.next;
    var asked := job.PreRemoveOf(e, job.Marks(job.next[..n]));
    if job.Judge(e).Migrate? {
      assert Rmdir(e.target) in asked;
      assert Rmdir(e.target).At() == e.target;
    } else {
      ConvertedIsUnmarked(job, n);
      assert Unlink(job.PrevBy()[e.target]) in asked;
      assert Unlink(job.PrevBy()[e.target]).At() == e.target;
    }
  }

  // Stage 2: Backup.

  lemma BackupApartSnoc(bs: seq<BackupAction>, b: BackupAction)
    requires BackupApart(bs)
    requires b.aside != [] && Parent(b.aside) == Parent(b.entry.target) && b.aside != b.entry.target
    requires forall c :: c in bs ==>
               && Apart(c.entry.target, b.entry.target) && Apart(c.aside, b.aside)
               && Apart(c.aside, b.entry.target) && Apart(c.entry.target, b.aside)
    ensures BackupApart(bs + [b])
  {
  }

  lemma EarlierBackupsApart(job: Job, n: nat, c: BackupAction)
    requires job.Valid() && PrefixFree(job.next) && AsidesFree(job.next, job.opts.Suffix()) && n < |job.next|
    requires c in job.Backups(job.next[..n])
    ensures var e, aside := job.next[n], WithSuffix(job.next[n].target, job.opts.Suffix());
            && Apart(c.entry.target, e.target) && Apart(c.aside, aside)
            && Apart(c.aside, e.target) && Apart(c.entry.target, aside)
  {
    var e := job.next[n];
    BackupIsOf(job, job.next[..n], c);
    hide Job.Judge;
    EarlierIsApart(job.next, n, c.entry);
    assert c.entry in job.next && e in job.next;
    AsideApart(job.next, job.opts.Suffix(), c.entry, e);
    AsideApart(job.next, job.opts.Suffix(), e, c.entry);
  }

  lemma {:induction false} BackupsApart(job: Job, n: nat)
    requires job.Valid() && PrefixFree(job.next) && AsidesFree(job.next, job.opts.Suffix()) && n <= |job.next|
    ensures BackupApart(job.Backups(job.next[..n]))
  {
    hide Job.Judge;
    if n > 0 {
      var m, e := job.next[..n - 1], job.next[n - 1];
      Prefix(job.next, n);
      BackupsApart(job, n - 1);
      var before := job.Backups(m);
      if job.Judge(e).Aside? {
        var b := BackupAction(e, WithSuffix(e.target, job.opts.Suffix()));
        forall c | c in before
          ensures Apart(c.entry.target, b.entry.target) && Apart(c.aside, b.aside)
          ensures Apart(c.aside, b.entry.target) && Apart(c.entry.target, b.aside)
        {
          EarlierBackupsApart(job, n - 1, c);
        }
        BackupApartSnoc(before, b);
      } else {
        EmptyEnd(before, job.BackupOf(e));
      }
    }
  }

  /** The aside of one target is apart from another target and its aside. */
  lemma AsideApart(next: Manifest, suffix: Name, e: Entry, f: Entry)
    requires PrefixFree(next) && AsidesFree(next, suffix) && e in next && f in next && Apart(e.target, f.target)
    ensures Apart(WithSuffix(e.target, suffix), f.target)
    ensures Apart(WithSuffix(e.target, suffix), WithSuffix(f.target, suffix))
  {
    var x, y := WithSuffix(e.target, suffix), WithSuffix(f.target, suffix);
    if f.target <= x {
      AboveParent(f.target, x);
    }
    if x <= y {
      if x == y { WithSuffixInjective(e.target, f.target, suffix); }
      else { AboveParent(x, y); }
    }
    if y <= x {
      if x == y { WithSuffixInjective(e.target, f.target, suffix); }
      else { AboveParent(y, x); }
    }
  }

  lemma BackupIs(job: Job, b: BackupAction)
    requires job.Valid() && b in job.Backups(job.next)
    ensures b.entry in job.next && job.Judge(b.entry).Aside? && b.aside == WithSuffix(b.entry.target, job.opts.Suffix())
    ensures b.entry.target in job.view.tree && b.aside !in job.view.tree
    ensures b.entry.how == Copy || (job.view.tree[b.entry.target] == Dir ==> job.Judge(b.entry) == Aside(true))
  {
    BackupIsOf(job, job.next, b);
    JudgeMeans(job, b.entry);
  }

  lemma StageTwo(job: Job)
    requires Orderly(job)
    ensures RunAll(job.view.world, T1(job), BackupActions(job.Backups(job.next))).done
    ensures ValidTree(T2(job)) && Relocated(T1(job), T2(job), job.Backups(job.next))
  {
    StageOne(job);
    BackupsApart(job, |job.next|);
    assert job.next[..|job.next|] == job.next;
    forall b | b in job.Backups(job.next) ensures b.entry.target in T1(job) && b.aside !in T1(job) {
      BackupIs(job, b);
      NotPreRemoved(job, b.entry);
    }
    BackupRuns(job.view.world, T1(job), job.Backups(job.next));
  }

  /** Above or at a target nothing is renamed, but the target itself when it is backed up. */
  lemma WayNotRenamed(job: Job, e: Entry, q: Path)
    requires Orderly(job) && e in job.next && q <= e.target
    requires q == e.target ==> !job.Judge(e).Aside?
    ensures !Renamed(job.Backups(job.next), q)
  {
    forall b | b in job.Backups(job.next) ensures !(b.entry.target <= q) && !(b.aside <= q) {
      BackupIs(job, b);
      if b.entry.target <= q { PrefixFreeOn(job.next, b.entry, e); }
    }
  }

  // Stages 3 and 4: Place and Copies.

  /** The verdicts that plant something at the target. */
  predicate Plantable(job: Job, e: Entry) {
    match job.Judge(e)
    case Free => true
    case Nested(_) => true
    case Migrate(_) => true
    case Aside(_) => true
    case Relinked(_) => true
    case Converted => true
    case _ => false
  }

  lemma PlantIsOf(job: Job, a: Action)
    requires job.Valid() && a in PlantActions(job)
    ensures Plants(a) && a.entry in job.next && Plantable(job, a.entry)
    ensures a.DoPlace? ==> a.entry.how == Symlink && PlaceAction(a.entry, a.kind) in job.PlaceOf(a.entry)
    ensures a.DoCopy? ==> a.entry.how == Copy && CopyAction(a.entry) in job.Copies(job.next)
  {
    JudgeMeans(job, a.entry) by { PlantIsAPlant(job.Places(job.next), job.Copies(job.next), a); }
    PlantIsAPlant(job.Places(job.next), job.Copies(job.next), a);
    if a.DoPlace? { PlaceIsOf(job, job.next, PlaceAction(a.entry, a.kind)); }
    else { CopyIsOf(job, job.next, CopyAction(a.entry)); }
  }

  lemma PlantIsAPlant(ps: seq<PlaceAction>, cs: seq<CopyAction>, a: Action)
    requires a in PlaceActions(ps) + CopyActions(cs)
    ensures (a.DoPlace? && PlaceAction(a.entry, a.kind) in ps) || (a.DoCopy? && CopyAction(a.entry) in cs)
  {
    if a in PlaceActions(ps) { PlaceActionIs(ps, a); } else { CopyActionIs(cs, a); }
  }

  lemma {:induction false} PlaceActionIs(ps: seq<PlaceAction>, a: Action)
    requires a in PlaceActions(ps)
    ensures a.DoPlace? && PlaceAction(a.entry, a.kind) in ps
  {
    if a in PlaceActions(ps[..|ps| - 1]) { PlaceActionIs(ps[..|ps| - 1], a); }
  }

  lemma {:induction false} PlaceActionListed(ps: seq<PlaceAction>, p: PlaceAction)
    requires p in ps
    ensures DoPlace(p.entry, p.kind) in PlaceActions(ps)
  {
    if p != ps[|ps| - 1] { PlaceActionListed(ps[..|ps| - 1], p); }
  }

  lemma {:induction false} CopyActionIs(cs: seq<CopyAction>, a: Action)
    requires a in CopyActions(cs)
    ensures a.DoCopy? && CopyAction(a.entry) in cs
  {
    if a in CopyActions(cs[..|cs| - 1]) { CopyActionIs(cs[..|cs| - 1], a); }
  }

  lemma {:induction false} CopyActionListed(cs: seq<CopyAction>, c: CopyAction)
    requires c in cs
    ensures DoCopy(c.entry) in CopyActions(cs)
  {
    if c != cs[|cs| - 1] { CopyActionListed(cs[..|cs| - 1], c); }
  }

  /** Each entry whose verdict plants something has its action. */
  lemma PlantIsListed(job: Job, e: Entry) returns (a: Action)
    requires job.Valid() && e in job.next && Plantable(job, e)
    ensures a in PlantActions(job) && Plants(a) && a.entry == e
    ensures a.DoPlace? <==> e.how == Symlink
  {
    JudgeMeans(job, e);
    if e.how == Symlink {
      var p := job.PlaceOf(e)[0];
      PlaceIsListed(job, job.next, e, p);
      PlaceActionListed(job.Places(job.next), p);
      a := DoPlace(e, p.kind);
    } else {
      CopyIsListed(job, job.next, e, CopyAction(e));
      CopyActionListed(job.Copies(job.next), CopyAction(e));
      a := DoCopy(e);
    }
  }

  lemma ApartSnoc(before: seq<Action>, a: Action)
    requires PlantsApart(before) && Plants(a)
    requires forall b :: b in before ==> Plants(b) && Apart(b.entry.target, a.entry.target)
    ensures PlantsApart(before + [a])
  {
  }

  lemma PlaceOfOne(job: Job, e: Entry)
    ensures job.PlaceOf(e) == [] || exists kind :: job.PlaceOf(e) == [PlaceAction(e, kind)]
  {
    hide Job.Judge;
  }

  lemma {:induction false} PlacesApart(job: Job, n: nat)
    requires PrefixFree(job.next) && n <= |job.next|
    ensures PlantsApart(PlaceActions(job.Places(job.next[..n])))
  {
    hide Job.Judge, Job.PlaceOf;
    if n > 0 {
      var m, e := job.next[..n - 1], job.next[n - 1];
      Prefix(job.next, n);
      PlacesApart(job, n - 1);
      PlaceOfOne(job, e);
      var before := job.Places(m);
      if job.PlaceOf(e) == [] {
        EmptyEnd(before, job.PlaceOf(e));
      } else {
        var kind :| job.PlaceOf(e) == [PlaceAction(e, kind)];
        ButLast(before, PlaceAction(e, kind));
        EarlierPlacesApart(job, n - 1);
        ApartSnoc(PlaceActions(before), DoPlace(e, kind));
      }
    }
  }

  lemma EarlierPlacesApart(job: Job, n: nat)
    requires PrefixFree(job.next) && n < |job.next|
    ensures forall b :: b in PlaceActions(job.Places(job.next[..n])) ==>
              Plants(b) && Apart(b.entry.target, job.next[n].target)
  {
    hide Job.Judge, Job.PlaceOf;
    forall b | b in PlaceActions(job.Places(job.next[..n])) ensures Plants(b) && Apart(b.entry.target, job.next[n].target) {
      PlaceActionIs(job.Places(job.next[..n]), b);
      PlaceIsOf(job, job.next[..n], PlaceAction(b.entry, b.kind));
      EarlierIsApart(job.next, n, b.entry);
    }
  }

  lemma CopiesOfOne(job: Job, e: Entry)
    ensures job.CopiesOf(e) == [] || job.CopiesOf(e) == [CopyAction(e)]
  {
    hide Job.Judge;
  }

  lemma {:induction false} CopiesApart(job: Job, n: nat)
    requires PrefixFree(job.next) && n <= |job.next|
    ensures PlantsApart(CopyActions(job.Copies(job.next[..n])))
  {
    hide Job.Judge, Job.CopiesOf;
    if n > 0 {
      var m, e := job.next[..n - 1], job.next[n - 1];
      Prefix(job.next, n);
      CopiesApart(job, n - 1);
      CopiesOfOne(job, e);
      var before := job.Copies(m);
      if job.CopiesOf(e) == [] {
        EmptyEnd(before, job.CopiesOf(e));
      } else {
        ButLast(before, CopyAction(e));
        EarlierCopiesApart(job, n - 1);
        ApartSnoc(CopyActions(before), DoCopy(e));
      }
    }
  }

  lemma EarlierCopiesApart(job: Job, n: nat)
    requires PrefixFree(job.next) && n < |job.next|
    ensures forall b :: b in CopyActions(job.Copies(job.next[..n])) ==>
              Plants(b) && Apart(b.entry.target, job.next[n].target)
  {
    hide Job.Judge, Job.CopiesOf;
    forall b | b in CopyActions(job.Copies(job.next[..n])) ensures Plants(b) && Apart(b.entry.target, job.next[n].target) {
      CopyActionIs(job.Copies(job.next[..n]), b);
      CopyIsOf(job, job.next[..n], CopyAction(b.entry));
      EarlierIsApart(job.next, n, b.entry);
    }
  }

  lemma AllPlantsApart(job: Job)
    requires job.Valid() && PrefixFree(job.next)
    ensures PlantsApart(PlantActions(job))
  {
    var places, copies := PlaceActions(job.Places(job.next)), CopyActions(job.Copies(job.next));
    assert job.next[..|job.next|] == job.next;
    PlacesApart(job, |job.next|);
    CopiesApart(job, |job.next|);
    forall a, b | a in places && b in copies ensures Plants(a) && Plants(b) && Apart(a.entry.target, b.entry.target) {
      PlantIsOf(job, a);
      PlantIsOf(job, b);
      PlaceActionIs(job.Places(job.next), a);
      CopyActionIs(job.Copies(job.next), b);
      EntriesApart(job.next, a.entry, b.entry);
    }
    ApartTogether(places, copies);
  }

  lemma ApartTogether(a: seq<Action>, b: seq<Action>)
    requires PlantsApart(a) && PlantsApart(b)
    requires forall x, y :: x in a && y in b ==> Plants(x) && Plants(y) && Apart(x.entry.target, y.entry.target)
    ensures PlantsApart(a + b)
  {
    var c := a + b;
    forall i, j | 0 <= i < j < |c|
      ensures Plants(c[i]) && Plants(c[j]) && Apart(c[i].entry.target, c[j].entry.target)
    {
      if i < |a| && j >= |a| { assert c[i] in a && c[j] in b; }
    }
  }

  lemma TargetIsVacated(job: Job, e: Entry)
    requires Orderly(job) && e in job.next && Plantable(job, e)
    ensures if job.Judge(e).Relinked? then e.target in T2(job) && T2(job)[e.target].Link? else e.target !in T2(job)
  {
    hide T2, T4;
    var x := e.target;
    StageTwo(job);
    JudgeMeans(job, e);
    if job.Judge(e).Aside? {
      BackupIsListed(job, job.next, e, BackupAction(e, WithSuffix(x, job.opts.Suffix())));
      assert x <= x;
    } else {
      WayNotRenamed(job, e, x);
      if job.Judge(e).Relinked? { NotPreRemoved(job, e); }
      if job.Judge(e).Migrate? || job.Judge(e).Converted? { MigratedOrConvertedGoes(job, e); }
    }
  }

  lemma WayWasThere(job: Job, e: Entry, q: Path)
    requires Orderly(job) && e in job.next && q < e.target && q in T2(job)
    ensures q in T1(job) && T2(job)[q] == job.view.tree[q]
  {
    hide T2, T4;
    StageTwo(job);
    WayNotRenamed(job, e, q);
  }

  lemma NestedMeans(job: Job, e: Entry, q: Path)
    requires job.Valid() && job.Judge(e).Nested?
    ensures job.Judge(e).link < e.target
    ensures q < job.Judge(e).link ==> q in job.view.tree && job.view.tree[q] == Dir
  {
    JudgeMeans(job, e);
    if q < job.Judge(e).link { assert q == e.target[..|q|]; }
  }

  lemma WayUnderLink(job: Job, e: Entry, q: Path)
    requires job.Valid() && PrefixFree(job.next) && e in job.next && job.Judge(e).Nested?
    requires q < e.target && q in T1(job)
    ensures q in job.view.tree && job.view.tree[q] == Dir
  {
    hide T2, T4;
    T1Valid(job);
    NestedLinkGoes(job, e);
    NestedMeans(job, e, q);
    AboveAbsent(T1(job), job.Judge(e).link, q, e.target);
  }

  lemma WayIsOpen(job: Job, e: Entry, k: nat)
    requires Orderly(job) && e in job.next && Plantable(job, e) && k < |e.target| && e.target[..k] in T2(job)
    ensures T2(job)[e.target[..k]] == Dir
  {
    hide T2, T4;
    var q := e.target[..k];
    WayWasThere(job, e, q);
    if job.Judge(e).Nested? {
      WayUnderLink(job, e, q);
    } else {
      JudgeMeans(job, e);
      if e.target in job.view.tree { AncestorsAreDirs(job.view.tree, e.target, q); }
    }
  }

  /** Once PreRemove and Backup have run, the way to a target that is planted holds only directories,
      and the target is absent -- or still the symlink that is re-linked. */
  lemma TargetIsReady(job: Job, e: Entry)
    requires Orderly(job) && e in job.next && Plantable(job, e)
    ensures WayClear(T2(job), e.target)
    ensures if job.Judge(e).Relinked? then e.target in T2(job) && T2(job)[e.target].Link? else e.target !in T2(job)
  {
    hide T2, T4;
    TargetIsVacated(job, e);
    forall k | 0 <= k < |e.target| && e.target[..k] in T2(job) ensures T2(job)[e.target[..k]] == Dir {
      WayIsOpen(job, e, k);
    }
  }

  lemma ActionIsReady(job: Job, a: Action)
    requires Orderly(job) && SourcesExist(job) && a in PlantActions(job)
    ensures Plants(a) && PlantReady(job.view.world, T2(job), a)
  {
    hide T2, T4, WayClear;
    PlantIsOf(job, a);
    TargetIsReady(job, a.entry);
    KindFits(job, a);
  }

  /** Only an existing link is re-linked. */
  lemma KindFits(job: Job, a: Action)
    requires job.Valid() && a in PlantActions(job)
    ensures Plants(a) && (a.DoPlace? ==> (a.kind == PlaceNew <==> !job.Judge(a.entry).Relinked?))
    ensures a.DoCopy? ==> !job.Judge(a.entry).Relinked?
  {
    PlantIsOf(job, a);
    JudgeMeans(job, a.entry);
  }

  lemma AllReady(job: Job)
    requires Orderly(job) && SourcesExist(job)
    ensures forall a :: a in PlantActions(job) ==> Plants(a) && PlantReady(job.view.world, T2(job), a)
  {
    hide T2, T4;
    forall a | a in PlantActions(job) ensures Plants(a) && PlantReady(job.view.world, T2(job), a) {
      ActionIsReady(job, a);
    }
  }

  lemma StageFour(job: Job)
    requires Orderly(job) && SourcesExist(job)
    ensures RunAll(job.view.world, T2(job), PlantActions(job)).done
    ensures ValidTree(T4(job)) && Grown(job.view.world, T2(job), T4(job), PlantActions(job))
  {
    StageTwo(job);
    AllPlantsApart(job);
    AllReady(job);
    PlantsRun(job.view.world, T2(job), PlantActions(job));
  }
}
