/** A run cut off anywhere, its journal lost, the profile still at the previous generation: what
    running it again comes to. Symlink-only next manifests, no --backup. */
module Crash {
  import opened Paths
  import opened Trees
  import opened Manifests
  import opened Planner
  import opened Steps
  import opened Undo
  import opened Program
  import opened Runs
  import opened Migrations
  import opened PlanFacts
  import opened Stages
  import opened Converge
  import opened Turns
  import opened Settle
  import opened Atomic
  import opened Outcomes

  /** The run in question: only symlinks wanted, no backup. */
  ghost predicate Plain(job: Job) {
    Orderly(job) && Distinct(job.prev) && !job.opts.backup && forall e :: e in job.next ==> e.how == Symlink
  }

  /** The same manifests against another tree. */
  function Again(job: Job, t: Tree): Job {
    job.(view := View(t, job.view.world))
  }

  /** What may stand above a target: a directory, or a recorded link that next drops. */
  predicate WayFree(job: Job, e: Entry) {
    forall q :: q in job.view.tree && q < e.target ==> job.view.tree[q] == Dir || Droppable(job, q)
  }

  /** What may stand at a target: a link, or a directory that can be migrated. */
  predicate SpotFree(job: Job, e: Entry) {
    e.target in job.view.tree ==>
      || job.view.tree[e.target].Link?
      || (job.view.tree[e.target] == Dir && forall q :: q in job.view.tree && e.target < q ==> Takeable(job, q))
  }

  /** lstat reaches every dropped symlink entry's target without an error other than absence. */
  predicate AllVisible(job: Job) {
    forall pe :: pe in job.prev && pe.target !in job.NextBy() && pe.how != Copy ==> !Lstat(job.view, pe.target).Fault?
  }

  predicate Tidy(job: Job) {
    (forall e :: e in job.next ==> WayFree(job, e) && SpotFree(job, e)) && AllVisible(job)
  }

  // A tidy tree is one the planner accepts, and the other way round.

  lemma {:induction false} WalkTidy(job: Job, target: Path, k: nat)
    requires job.Valid() && 1 <= k
    requires forall q :: q in job.view.tree && q < target ==> job.view.tree[q] == Dir || Droppable(job, q)
    requires forall j :: 0 <= j < k && j < |target| ==> target[..j] in job.view.tree && job.view.tree[target[..j]] == Dir
    ensures match job.AncestorSymlink(target, k)
            case NoLink => WayClear(job.view.tree, target)
            case LinkAt(link) => Droppable(job, link)
            case Unreadable => false
    decreases |target| - k
  {
    var t := job.view.tree;
    if k < |target| {
      var q := target[..k];
      if q in t {
        if t[q] == Dir { WalkTidy(job, target, k + 1); }
      } else {
        NearestIsParent(t, target, k);
        forall j | 0 <= j < |target| && target[..j] in t ensures t[target[..j]] == Dir {
          if j >= k { AbsentBeyond(t, target, k, j); }
        }
      }
    }
  }

  lemma NearestIsParent(t: Tree, target: Path, k: nat)
    requires ValidTree(t) && 1 <= k <= |target| && target[..k] !in t
    requires target[..k - 1] in t
    ensures Nearest(t, target[..k]) == target[..k - 1]
  {
    var q := target[..k];
    var near := Nearest(t, q);
    assert q[..k - 1] == target[..k - 1];
    assert |near| >= k - 1;
    assert near == q[..|near|];
    assert near != q;
  }

  lemma AbsentBeyond(t: Tree, target: Path, k: nat, j: nat)
    requires ValidTree(t) && k <= j <= |target| && target[..k] !in t
    ensures target[..j] !in t
  {
    NothingBeneath(t, target[..k]);
    if j > k { assert target[..k] < target[..j]; }
  }

  lemma TidyVerdict(job: Job, e: Entry)
    requires job.Valid() && e.how == Symlink && WayFree(job, e) && SpotFree(job, e)
    ensures job.Judge(e).Free? || job.Judge(e).Nested? || job.Judge(e).Relinked? || job.Judge(e).Migrate?
  {
    AncestorStart(job, e.target);
    WalkTidy(job, e.target, 1);
    if job.AncestorSymlink(e.target, 1).NoLink? {
      if e.target in job.view.tree {
        if job.view.tree[e.target] == Dir { MigratableExactly(job, e.target); }
      } else {
        ClearIsAbsent(job.view, e.target);
      }
    }
  }

  lemma SeenIsNotObscured(job: Job, pe: Entry)
    requires AllVisible(job) && pe in job.prev
    ensures !job.Leave(pe).Obscured?
  {
  }

  lemma TidyIsAccepted(job: Job)
    requires Plain(job) && Tidy(job)
    ensures job.Accepted()
  {
    forall e | e in job.next ensures !job.Judge(e).Broken? && !job.Judge(e).Clash? { TidyVerdict(job, e); }
    forall pe | pe in job.prev ensures !job.Leave(pe).Obscured? { SeenIsNotObscured(job, pe); }
    NoConflict(job, job.next);
  }

  lemma AcceptedWay(job: Job, e: Entry)
    requires Plain(job) && job.Accepted() && e in job.next
    ensures WayFree(job, e) && SpotFree(job, e)
  {
    var t := job.view.tree;
    JudgeMeans(job, e);
    if job.Judge(e).Clash? { ConflictIsListed(job, job.next, e); }
    forall q | q in t && q < e.target ensures t[q] == Dir || Droppable(job, q) {
      if e.target in t { AncestorsAreDirs(t, e.target, q); }
      if job.Judge(e).Free? { WayLeaf(t, e.target, q); }
      if job.Judge(e).Nested? { UnderNested(job, e, q); }
    }
    if job.Judge(e).Migrate? { MigratableExactly(job, e.target); }
  }

  lemma UnderNested(job: Job, e: Entry, q: Path)
    requires job.Valid() && job.Judge(e).Nested? && q in job.view.tree && q < e.target
    ensures job.view.tree[q] == Dir || Droppable(job, q)
  {
    var t, link := job.view.tree, job.Judge(e).link;
    JudgeMeans(job, e);
    NothingBeneath(t, link);
    Comparable(q, link, e.target);
    if q < link { NestedMeans(job, e, q); }
    if link <= q { SameOrAbove(link, q); }
  }

  lemma AcceptedSees(job: Job, pe: Entry)
    requires Plain(job) && job.Accepted() && pe in job.prev && pe.target !in job.NextBy() && pe.how != Copy
    ensures !Lstat(job.view, pe.target).Fault?
  {
    if pe.target in job.Marks(job.next) {
      MarkedIsPreRemoved(job, job.next, pe.target);
      if pe.target in At(job.PreRemoves(job.next)) {
        var a :| a in job.PreRemoves(job.next) && a.At() == pe.target;
        var e := PreRemoveIsOf(job, job.next, a);
        AskedIsThere(job, e, a);
      } else {
        var e :| e in job.next && Sweeps(job, e) && e.target <= pe.target;
        JudgeMeans(job, e);
        if job.Judge(e).Clash? { ConflictIsListed(job, job.next, e); }
      }
    } else {
      assert !job.Leave(pe).Obscured?;
    }
  }

  /** For a plain job the planner accepts exactly the tidy trees. */
  lemma AcceptedExactlyTidy(job: Job)
    requires Plain(job)
    ensures job.Accepted() <==> Tidy(job)
  {
    if Tidy(job) { TidyIsAccepted(job); }
    if job.Accepted() {
      forall e | e in job.next ensures WayFree(job, e) && SpotFree(job, e) { AcceptedWay(job, e); }
      forall pe | pe in job.prev && pe.target !in job.NextBy() && pe.how != Copy
        ensures !Lstat(job.view, pe.target).Fault?
      {
        AcceptedSees(job, pe);
      }
    }
  }

  // Every write of a plain run keeps the tree tidy.

  /** Looking up a dropped target through a freshly placed link is not an error: the link's destination
      is not a file that the path would have to go through. */
  predicate Recoverable(job: Job) {
    forall e, pe :: e in job.next && pe in job.prev && pe.target !in job.NextBy() && pe.how != Copy && e.target < pe.target ==>
      !job.view.world.probe(LinkDest(e) + pe.target[|e.target|..]).Fault?
  }

  /** The writes a plain run consists of. */
  ghost predicate PlainEvent(job: Job, x: Event) {
    match x
    case MkParent(m) => exists e :: e in job.next && m < e.target
    case LinkNew(p, d) => exists e :: e in job.next && p == e.target && d == LinkDest(e)
    case Relink(p, d) => exists e :: e in job.next && p == e.target && d == LinkDest(e)
    case Detach(p, _) => exists e :: e in job.next && p == e.target
    case Drop(p, d) => p !in job.NextBy() && p in job.PrevBy() && d == LinkDest(job.PrevBy()[p])
                       && (job.PrevBy()[p].how == Copy ==> exists e :: e in job.next && (p < e.target || e.target < p))
    case RmDir(_) => true
    case _ => false
  }

  lemma PlainHasNoCopy(job: Job, m: Manifest)
    requires forall e :: e in m ==> e.how == Symlink
    ensures job.Copies(m) == []
  {
    if m != [] { assert m[|m| - 1] in m; PlainHasNoCopy(job, m[..|m| - 1]); }
  }

  lemma {:induction false} PlainHasNoBackup(job: Job, m: Manifest)
    requires job.Valid() && !job.opts.backup
    ensures job.Backups(m) == []
  {
    if m != [] {
      PlainHasNoBackup(job, m[..|m| - 1]);
      JudgeMeans(job, m[|m| - 1]);
    }
  }

  lemma {:induction false} PreActionOf(rs: seq<RemoveAction>, a: Action)
    requires a in PreActions(rs)
    ensures exists r :: r in rs && a == PreAction(r)
  {
    if a in PreActions(rs[..|rs| - 1]) {
      PreActionOf(rs[..|rs| - 1], a);
      var r :| r in rs[..|rs| - 1] && a == PreAction(r);
      assert r in rs;
    } else {
      assert rs[|rs| - 1] in rs;
    }
  }

  lemma PlainPreDrop(job: Job, a: Action)
    requires Plain(job) && a in PreActions(job.PreRemoves(job.next)) && a.PreDrop?
    ensures a.entry.target !in job.NextBy() && a.entry.target in job.PrevBy() && a.entry == job.PrevBy()[a.entry.target]
    ensures exists e :: e in job.next && (a.entry.target < e.target || e.target < a.entry.target)
  {
    PreActionOf(job.PreRemoves(job.next), a);
    var r :| r in job.PreRemoves(job.next) && a == PreAction(r);
    var e := PreRemoveIsOf(job, job.next, r);
    AskedIsThere(job, e, r);
    InNextBy(job, e);
    JudgeMeans(job, e);
    if job.Judge(e).Migrate? { SameOrAbove(e.target, a.entry.target); }
  }

  lemma PlainActions(job: Job, limits: seq<nat>, a: Action)
    requires Plain(job) && |limits| == |job.Removes(job.prev)| && a in Schedule(job, false, limits)
    ensures a.PreDrop? || a.PreRmDir? || a.DoPlace? || a.DoDrop?
    ensures a.DoPlace? ==> a.entry in job.next
    ensures a.DoDrop? ==> a.entry in job.prev && a.entry.target !in job.NextBy() && a.entry.how != Copy
    ensures a.PreDrop? ==> a in PreActions(job.PreRemoves(job.next))
  {
    PlainHasNoCopy(job, job.next);
    PlainHasNoBackup(job, job.next);
    if a in PreActions(job.PreRemoves(job.next)) {
      PreActionIs(job.PreRemoves(job.next), a);
    } else if a in PlaceActions(job.Places(job.next)) {
      PlaceActionIs(job.Places(job.next), a);
      PlaceIsOf(job, job.next, PlaceAction(a.entry, a.kind));
    } else {
      DropsAre(job, limits, a);
      RemoveIsOf(job, job.prev, Unlink(a.entry));
    }
  }

  lemma PlainEvents(job: Job, limits: seq<nat>, cut: seq<Event>, x: Event)
    requires Plain(job) && |limits| == |job.Removes(job.prev)| && Stops(job, false, limits, cut) && x in cut
    ensures PlainEvent(job, x)
  {
    var a := CutFrom(job.view.world, job.view.tree, Schedule(job, false, limits), cut, x);
    PlainActions(job, limits, a);
    if a.PreDrop? { PlainPreDrop(job, a); }
    if a.DoDrop? { ByTargetIsExact(job.prev, a.entry); }
  }

  /** Removing a node keeps a tree tidy. */
  lemma RemovalKeepsTidy(job: Job, p: Path)
    requires job.Valid() && Tidy(job) && p in job.view.tree && p != []
    requires ValidTree(Without(job.view.tree, p)) && Vacant(job.view.tree, p)
    ensures Tidy(Again(job, Without(job.view.tree, p)))
  {
    var t := job.view.tree;
    var later := Again(job, Without(t, p));
    forall q | q in later.view.tree && Takeable(job, q) ensures Takeable(later, q) {
      if t[q].Link? { assert Lstat(later.view, q) == Lstat(job.view, q); }
    }
    forall e | e in job.next ensures WayFree(later, e) && SpotFree(later, e) {
      assert WayFree(job, e) && SpotFree(job, e);
    }
    forall pe | pe in job.prev && pe.target !in job.NextBy() && pe.how != Copy
      ensures !Lstat(later.view, pe.target).Fault?
    {
      RemovalKeepsSight(job.view, p, pe.target);
    }
  }

  lemma RemovalKeepsSight(v: View, p: Path, x: Path)
    requires ValidTree(v.tree) && p in v.tree && p != [] && Vacant(v.tree, p) && !Lstat(v, x).Fault?
    ensures !Lstat(View(Without(v.tree, p), v.world), x).Fault?
  {
    var u := Without(v.tree, p);
    if x !in u {
      var near, later := Nearest(v.tree, x), Nearest(u, x);
      NearestAfterRemoval(v.tree, p, x);
    }
  }

  lemma NearestAfterRemoval(t: Tree, p: Path, x: Path)
    requires ValidTree(t) && p in t && p != [] && x !in Without(t, p)
    ensures Nearest(Without(t, p), x) == if Nearest(t, x) == p then Parent(p) else Nearest(t, x)
  {
    var u, near := Without(t, p), Nearest(t, x);
    forall r | r in u && r <= x ensures r <= near && (near == p ==> r <= Parent(p)) {
      NearestIsLast(t, x, r);
      if near == p { SameOrAbove(r, p); AboveParent(r, p); }
    }
    NearestIs(u, x, if near == p then Parent(p) else near);
  }

  lemma NearestAfterAddition(t: Tree, p: Path, n: Node, x: Path)
    requires ValidTree(t) && Room(t, p)
    ensures Nearest(t[p := n], x) == if p <= x then p else Nearest(t, x)
  {
    var u := t[p := n];
    NothingBeneath(t, p);
    if p <= x {
      forall r | r in u && r <= x ensures r <= p {
        Comparable(r, p, x);
        if p <= r { SameOrAbove(p, r); }
      }
      NearestIs(u, x, p);
    } else {
      forall r | r in u && r <= x ensures r <= Nearest(t, x) { NearestIsLast(t, x, r); }
      NearestIs(u, x, Nearest(t, x));
    }
  }

  /** What a plain run adds: a parent of a target, or the link of a target. */
  ghost predicate PlainAddition(job: Job, p: Path, n: Node) {
    || (n == Dir && exists e :: e in job.next && p < e.target)
    || (exists e :: e in job.next && p == e.target && n == Link(LinkDest(e)))
  }

  lemma AdditionKeepsSight(job: Job, p: Path, n: Node, pe: Entry)
    requires job.Valid() && Recoverable(job) && Room(job.view.tree, p) && PlainAddition(job, p, n)
    requires pe in job.prev && pe.target !in job.NextBy() && pe.how != Copy && !Lstat(job.view, pe.target).Fault?
    ensures !Lstat(Again(job, job.view.tree[p := n]).view, pe.target).Fault?
  {
    var t, u, x := job.view.tree, job.view.tree[p := n], pe.target;
    if x !in u {
      NearestAfterAddition(t, p, n, x);
      if p <= x {
        SameOrAbove(p, x);
        if n != Dir {
          var e :| e in job.next && p == e.target && n == Link(LinkDest(e));
          assert !job.view.world.probe(LinkDest(e) + pe.target[|e.target|..]).Fault?;
        }
      } else {
        var near := Nearest(t, x);
        assert near in t && u[near] == t[near];
      }
    }
  }

  lemma AdditionKeepsTakeable(job: Job, p: Path, n: Node, q: Path)
    requires job.Valid() && p !in job.view.tree && Takeable(job, q)
    ensures Takeable(Again(job, job.view.tree[p := n]), q)
  {
    var later := Again(job, job.view.tree[p := n]);
    if job.view.tree[q].Link? { assert Lstat(later.view, q) == Lstat(job.view, q); }
  }

  /** A node added neither above nor beneath nor at a target, or as it may be there. */
  lemma AdditionElsewhere(job: Job, p: Path, n: Node, f: Entry)
    requires job.Valid() && p !in job.view.tree && WayFree(job, f) && SpotFree(job, f)
    requires p < f.target ==> n == Dir
    requires p == f.target ==> n.Link?
    requires f.target < p ==> n == Dir
    ensures WayFree(Again(job, job.view.tree[p := n]), f) && SpotFree(Again(job, job.view.tree[p := n]), f)
  {
    var t := job.view.tree;
    var later := Again(job, t[p := n]);
    forall q | q in later.view.tree && q < f.target ensures later.view.tree[q] == Dir || Droppable(later, q) {
      if q != p && t[q] != Dir { AdditionKeepsTakeable(job, p, n, q); }
    }
    if f.target in t && t[f.target] == Dir {
      forall q | q in later.view.tree && f.target < q ensures Takeable(later, q) {
        if q != p { AdditionKeepsTakeable(job, p, n, q); }
      }
    }
  }

  lemma AdditionKeepsSpot(job: Job, p: Path, n: Node, f: Entry)
    requires job.Valid() && PrefixFree(job.next) && Room(job.view.tree, p) && PlainAddition(job, p, n)
    requires f in job.next && WayFree(job, f) && SpotFree(job, f)
    ensures WayFree(Again(job, job.view.tree[p := n]), f) && SpotFree(Again(job, job.view.tree[p := n]), f)
  {
    if n == Dir && exists e :: e in job.next && p < e.target {
      var e :| e in job.next && p < e.target;
      if f.target == p { PrefixFreeOn(job.next, f, e); }
    } else {
      var e :| e in job.next && p == e.target && n == Link(LinkDest(e));
      if e != f { EntriesApart(job.next, e, f); }
    }
    AdditionElsewhere(job, p, n, f);
  }

  lemma AdditionKeepsTidy(job: Job, p: Path, n: Node)
    requires job.Valid() && PrefixFree(job.next) && Tidy(job) && Recoverable(job)
    requires Room(job.view.tree, p) && PlainAddition(job, p, n)
    ensures Tidy(Again(job, job.view.tree[p := n]))
  {
    forall e | e in job.next
      ensures WayFree(Again(job, job.view.tree[p := n]), e) && SpotFree(Again(job, job.view.tree[p := n]), e)
    {
      AdditionKeepsSpot(job, p, n, e);
    }
    forall pe | pe in job.prev && pe.target !in job.NextBy() && pe.how != Copy
      ensures !Lstat(Again(job, job.view.tree[p := n]).view, pe.target).Fault?
    {
      AdditionKeepsSight(job, p, n, pe);
    }
  }

  lemma EventKeepsTidy(job: Job, x: Event)
    requires job.Valid() && PrefixFree(job.next) && Tidy(job) && Recoverable(job)
    requires Enabled(job.view.tree, x) && PlainEvent(job, x)
    ensures Tidy(Again(job, Apply(job.view.tree, x)))
  {
    var t := job.view.tree;
    ApplyValid(t, x);
    match x
    case MkParent(p) => AdditionKeepsTidy(job, p, Dir);
    case LinkNew(p, d) => AdditionKeepsTidy(job, p, Link(d));
    case Relink(p, d) => AdditionKeepsTidy(job, p, Link(d));
    case Detach(p, _) =>
      NothingBeneath(t, p);
      RemovalKeepsTidy(job, p);
    case Drop(p, _) =>
      NothingBeneath(t, p);
      RemovalKeepsTidy(job, p);
    case RmDir(p) => RemovalKeepsTidy(job, p);
  }

  lemma {:induction false} StaysTidy(job: Job, es: seq<Event>)
    requires job.Valid() && PrefixFree(job.next) && Tidy(job) && Recoverable(job)
    requires Legal(job.view.tree, es) && forall x :: x in es ==> PlainEvent(job, x)
    ensures ValidTree(Exec(job.view.tree, es)) && Tidy(Again(job, Exec(job.view.tree, es)))
    decreases |es|
  {
    LegalValid(job.view.tree, es);
    if es != [] {
      var init, x := es[..|es| - 1], es[|es| - 1];
      assert x in es && forall y :: y in init ==> y in es;
      StaysTidy(job, init);
      var midway := Again(job, Exec(job.view.tree, init));
      assert PlainEvent(midway, x) && Recoverable(midway);
      EventKeepsTidy(midway, x);
    }
  }

  // The links and files the second run ends with.

  /** A recorded link that a run of the job removes: dropped by next, and a symlink entry's or in the
      way of a target. */
  predicate Taken(job: Job, q: Path) {
    && Droppable(job, q)
    && (job.PrevBy()[q].how == Copy ==> exists e :: e in job.next && q < e.target)
  }

  predicate Outside(job: Job, q: Path) {
    forall e :: e in job.next ==> !(e.target <= q)
  }

  lemma SeenInside(v: View, q: Path)
    requires q in v.tree && v.tree[q].Link?
    ensures Readlink(v, q) == Some(v.tree[q].dest)
  {
  }

  lemma AskedIsTaken(job: Job, e: Entry, a: RemoveAction)
    requires Plain(job) && e in job.next && Asks(job, e, a) && a.Unlink? && !(e.target <= a.At())
    ensures Taken(job, a.At())
  {
    AskedIsThere(job, e, a);
    hide Job.Judge, Standing, Orderly, AsidesFree, ValidTree, ValidWorld, Lstat;
    SeenInside(job.view, a.At());
  }

  lemma PreRemovedIsTaken(job: Job, q: Path)
    requires Plain(job) && Outside(job, q) && q in job.view.tree && job.view.tree[q] != Dir
    requires q in At(job.PreRemoves(job.next))
    ensures Taken(job, q)
  {
    hide Job.Judge, Taken, Asks;
    var a :| a in job.PreRemoves(job.next) && a.At() == q;
    var e := PreRemoveIsOf(job, job.next, a);
    AskedIsThere(job, e, a);
    AskedIsTaken(job, e, a);
  }

  lemma DroppedIsTaken(job: Job, q: Path)
    requires Plain(job) && Dropped(job, q)
    ensures Taken(job, q)
  {
    var pe :| pe in job.prev && pe.target == q && q !in job.NextBy() && pe.how != Copy && Live(job.view.tree, pe);
    ByTargetIsExact(job.prev, pe);
    assert Lstat(job.view, q) == Found(job.view.tree[q]);
  }

  lemma TakenIsEither(job: Job, q: Path)
    requires Plain(job) && job.Accepted() && Taken(job, q)
    ensures q in At(job.PreRemoves(job.next)) || Dropped(job, q)
  {
    var pe := job.PrevBy()[q];
    assert Live(job.view.tree, pe);
    if pe.how == Copy {
      var e :| e in job.next && q < e.target;
      LinkAboveIsTheOne(job, e, q);
      NestedLinkGoes(job, e);
    }
  }

  lemma TakenExactly(job: Job, q: Path)
    requires Plain(job) && job.Accepted() && Outside(job, q) && q in job.view.tree && job.view.tree[q] != Dir
    ensures Taken(job, q) <==> q in At(job.PreRemoves(job.next)) || Dropped(job, q)
  {
    if q in At(job.PreRemoves(job.next)) { PreRemovedIsTaken(job, q); }
    if Dropped(job, q) { DroppedIsTaken(job, q); }
    if Taken(job, q) { TakenIsEither(job, q); }
  }

  /** Away from the targets: what is taken is gone, every other link and file is as it was. */
  ghost predicate PlainlySettled(job: Job, u: Tree) {
    && (forall e :: e in job.next ==> e.target in u && u[e.target] == Link(LinkDest(e)))
    && (forall q :: Outside(job, q) ==> Leaf(u, q) == if Taken(job, q) then None else Leaf(job.view.tree, q))
  }

  lemma PlainIsGood(job: Job)
    requires Plain(job) && Standing(job) && job.Accepted()
    ensures Good(job)
  {
    PlainHasNoCopy(job, job.next);
  }

  lemma PlainOutside(job: Job, u: Tree, q: Path)
    requires Plain(job) && job.Accepted() && LeavesSettled(job, u) && Outside(job, q)
    ensures Leaf(u, q) == if Taken(job, q) then None else Leaf(job.view.tree, q)
  {
    PlainHasNoBackup(job, job.next);
    assert !Renamed(job.Backups(job.next), q);
    forall a | a in PlantActions(job) ensures Plants(a) && !(a.entry.target <= q) { PlantIsOf(job, a); }
    assert !Occupied(job, q);
    if q in job.view.tree && job.view.tree[q] != Dir { TakenExactly(job, q); }
  }

  lemma PlainRunSettles(job: Job, limits: seq<nat>)
    requires Plain(job) && Standing(job) && job.Accepted() && |limits| == |job.Removes(job.prev)|
    ensures RunAll(job.view.world, job.view.tree, Schedule(job, false, limits)).done
    ensures PlainlySettled(job, End(job.view.world, job.view.tree, Schedule(job, false, limits)))
    ensures ValidTree(End(job.view.world, job.view.tree, Schedule(job, false, limits)))
  {
    PlainIsGood(job);
    Converges(job, limits);
    var u := End(job.view.world, job.view.tree, Schedule(job, false, limits));
    forall e | e in job.next ensures e.target in u && u[e.target] == Link(LinkDest(e)) {
      assert InPlace(job.view.world, u, e);
    }
    forall q | Outside(job, q) ensures Leaf(u, q) == if Taken(job, q) then None else Leaf(job.view.tree, q) {
      PlainOutside(job, u, q);
    }
  }

  /** Away from the targets, a plain run midway has lost at most what it takes. */
  ghost predicate Midway(job: Job, u: Tree) {
    forall q :: Outside(job, q) ==>
      Leaf(u, q) == Leaf(job.view.tree, q) || (Leaf(u, q) == None && Taken(job, q))
  }

  /** Away from the targets a plain write takes a recorded link, or no leaf at all. */
  lemma EventAtLeaf(job: Job, u: Tree, x: Event, q: Path)
    requires job.Valid() && ValidTree(u) && Enabled(u, x) && PlainEvent(job, x) && Outside(job, q)
    requires x.RmDir? ==> u[x.path] == Dir
    ensures Leaf(Apply(u, x), q) == Leaf(u, q) || (x.Drop? && x.path == q && Leaf(Apply(u, x), q) == None)
  {
    hide Job.Judge;
  }

  lemma DropIsTaken(job: Job, u: Tree, q: Path, d: Path)
    requires job.Valid() && PlainEvent(job, Drop(q, d)) && Outside(job, q)
    requires Leaf(job.view.tree, q) == Some(Link(d))
    ensures Taken(job, q)
  {
    hide Job.Judge;
    SeenInside(job.view, q);
  }

  lemma EventKeepsMidway(job: Job, u: Tree, x: Event)
    requires Plain(job) && ValidTree(u) && Enabled(u, x) && PlainEvent(job, x) && Midway(job, u)
    requires x.RmDir? ==> u[x.path] == Dir
    ensures Midway(job, Apply(u, x))
  {
    hide Taken, PlainEvent, Job.Judge;
    forall q | Outside(job, q)
      ensures Leaf(Apply(u, x), q) == Leaf(job.view.tree, q) || (Leaf(Apply(u, x), q) == None && Taken(job, q))
    {
      EventAtLeaf(job, u, x, q);
      if x.Drop? && x.path == q && Leaf(u, q) == Leaf(job.view.tree, q) { DropIsTaken(job, u, q, x.dest); }
    }
  }

  lemma {:induction false} StaysMidway(job: Job, es: seq<Event>)
    requires Plain(job) && Legal(job.view.tree, es) && Lossless(job.view.tree, es)
    requires forall x :: x in es ==> PlainEvent(job, x)
    ensures Midway(job, Exec(job.view.tree, es))
    decreases |es|
  {
    if es != [] {
      var init, x := es[..|es| - 1], es[|es| - 1];
      assert x in es && forall y :: y in init ==> y in es;
      LegalValid(job.view.tree, init);
      StaysMidway(job, init);
      EventKeepsMidway(job, Exec(job.view.tree, init), x);
    }
  }

  lemma CutIsPlain(job: Job, limits: seq<nat>, cut: seq<Event>)
    requires Plain(job) && |limits| == |job.Removes(job.prev)| && Stops(job, false, limits, cut)
    ensures Legal(job.view.tree, cut) && Lossless(job.view.tree, cut)
    ensures forall x :: x in cut ==> PlainEvent(job, x)
  {
    var w, t, actions := job.view.world, job.view.tree, Schedule(job, false, limits);
    RunAllLegal(w, t, actions);
    ScheduleDoesNotDrift(job, false, limits);
    RunAllLossless(w, t, actions);
    CutLegal(t, cut, RunAll(w, t, actions).events);
    forall x | x in cut ensures PlainEvent(job, x) { PlainEvents(job, limits, cut, x); }
  }

  lemma PlainAgain(job: Job, t: Tree)
    requires Plain(job) && ValidTree(t)
    ensures Plain(Again(job, t))
  {
  }

  lemma CutIsAccepted(job: Job, limits: seq<nat>, cut: seq<Event>)
    requires Plain(job) && job.Accepted() && Recoverable(job)
    requires |limits| == |job.Removes(job.prev)| && Stops(job, false, limits, cut)
    ensures var later := Again(job, Exec(job.view.tree, cut));
            Plain(later) && later.Accepted() && Midway(job, later.view.tree)
  {
    CutIsPlain(job, limits, cut);
    AcceptedExactlyTidy(job);
    StaysTidy(job, cut);
    StaysMidway(job, cut);
    PlainAgain(job, Exec(job.view.tree, cut));
    AcceptedExactlyTidy(Again(job, Exec(job.view.tree, cut)));
  }

  lemma SettledAtTarget(job: Job, u: Tree, v: Tree, e: Entry, q: Path)
    requires ValidTree(u) && ValidTree(v) && e.target <= q
    requires e.target in u && u[e.target] == Link(LinkDest(e)) && e.target in v && v[e.target] == Link(LinkDest(e))
    ensures Leaf(u, q) == Leaf(v, q)
  {
    NothingBeneath(u, e.target);
    NothingBeneath(v, e.target);
    SameOrAbove(e.target, q);
  }

  lemma TakenLater(job: Job, later: Job, q: Path)
    requires later == Again(job, later.view.tree)
    requires q in job.view.tree && q in later.view.tree && later.view.tree[q] == job.view.tree[q]
    ensures Taken(later, q) <==> Taken(job, q)
  {
    hide Job.Judge;
    if job.view.tree[q].Link? {
      SeenInside(job.view, q);
      SeenInside(later.view, q);
    }
  }

  lemma SettledOutside(job: Job, later: Job, u: Tree, v: Tree, q: Path)
    requires Plain(job) && later == Again(job, later.view.tree) && Outside(job, q) && Midway(job, later.view.tree)
    requires PlainlySettled(job, u) && PlainlySettled(later, v)
    ensures Leaf(u, q) == Leaf(v, q)
  {
    hide Taken, Job.Judge;
    assert Outside(later, q);
    if Leaf(later.view.tree, q) == Leaf(job.view.tree, q) && Leaf(job.view.tree, q) != None {
      TakenLater(job, later, q);
    }
  }

  /** Seen through the links of next, too, nothing is a link that prev recorded. */
  predicate Unseen(job: Job) {
    forall e, pe :: e in job.next && pe in job.prev && e.target < pe.target ==>
      job.view.world.probe(LinkDest(e) + pe.target[|e.target|..]) != Found(Link(LinkDest(pe)))
  }

  /** Every link is one that was there, or one of next's in its place. */
  ghost predicate LinksKnown(job: Job, u: Tree) {
    forall q :: q in u && u[q].Link? ==>
      || (q in job.view.tree && job.view.tree[q] == u[q])
      || exists e :: e in job.next && q == e.target && u[q] == Link(LinkDest(e))
  }

  lemma {:induction false} LinksStayKnown(job: Job, es: seq<Event>)
    requires forall x :: x in es ==> PlainEvent(job, x)
    ensures LinksKnown(job, Exec(job.view.tree, es))
    decreases |es|
  {
    if es != [] {
      var init, x := es[..|es| - 1], es[|es| - 1];
      assert x in es && forall y :: y in init ==> y in es;
      LinksStayKnown(job, init);
    }
  }

  lemma ForeignLater(job: Job, u: Tree, pe: Entry)
    requires job.Valid() && ValidTree(u) && LinksKnown(job, u) && Unseen(job) && pe in job.prev && Foreign(job.view, pe)
    ensures Foreign(View(u, job.view.world), pe)
  {
    var q := Nearest(u, pe.target);
    if StillRecorded(View(u, job.view.world), pe) && pe.target !in u {
      assert q in u && u[q].Link? && q < pe.target;
      if q in job.view.tree && job.view.tree[q] == u[q] {
        NothingBeneath(job.view.tree, q);
        SightThroughLink(job.view, q, pe.target);
      }
    }
  }

  lemma StandsLater(job: Job, limits: seq<nat>, cut: seq<Event>)
    requires Plain(job) && Standing(job) && Unseen(job)
    requires |limits| == |job.Removes(job.prev)| && Stops(job, false, limits, cut)
    ensures Standing(Again(job, Exec(job.view.tree, cut)))
  {
    CutIsPlain(job, limits, cut);
    LegalValid(job.view.tree, cut);
    LinksStayKnown(job, cut);
    forall pe | pe in job.prev ensures Foreign(View(Exec(job.view.tree, cut), job.view.world), pe) {
      ForeignLater(job, Exec(job.view.tree, cut), pe);
    }
  }

  /** Crash convergence. Cut a run anywhere and lose its journal: planning the same generations again
      meets no conflict and no error, and running that plan ends with the same links and files as the
      run that was not cut. */
  lemma CrashConverges(job: Job, limits: seq<nat>, cut: seq<Event>, again: seq<nat>)
    requires Plain(job) && Standing(job) && Unseen(job) && job.Accepted() && Recoverable(job)
    requires |limits| == |job.Removes(job.prev)| && Stops(job, false, limits, cut)
    requires |again| == |Again(job, Exec(job.view.tree, cut)).Removes(job.prev)|
    ensures var later := Again(job, Exec(job.view.tree, cut));
            && later.Accepted()
            && RunAll(later.view.world, later.view.tree, Schedule(later, false, again)).done
            && forall q :: Leaf(End(later.view.world, later.view.tree, Schedule(later, false, again)), q)
                           == Leaf(End(job.view.world, job.view.tree, Schedule(job, false, limits)), q)
  {
    var later := Again(job, Exec(job.view.tree, cut));
    CutIsAccepted(job, limits, cut);
    StandsLater(job, limits, cut);
    PlainRunSettles(job, limits);
    PlainRunSettles(later, again);
    var u := End(job.view.world, job.view.tree, Schedule(job, false, limits));
    var v := End(later.view.world, later.view.tree, Schedule(later, false, again));
    forall q ensures Leaf(v, q) == Leaf(u, q) {
      if Outside(job, q) {
        SettledOutside(job, later, u, v, q);
      } else {
        var e :| e in job.next && e.target <= q;
        SettledAtTarget(job, u, v, e, q);
      }
    }
  }

  lemma SightThroughLink(v: View, p: Path, x: Path)
    requires ValidTree(v.tree) && p in v.tree && v.tree[p].Link? && p < x
    ensures Lstat(v, x) == v.world.probe(v.tree[p].dest + x[|p|..])
  {
    NothingBeneath(v.tree, p);
    forall r | r in v.tree && r <= x ensures r <= p {
      Comparable(r, p, x);
      if p <= r { SameOrAbove(p, r); }
    }
    NearestIs(v.tree, x, p);
  }

  /** ... and the condition is exact: where a placed link leads to a file that a dropped target would
      have to go through, a run that did everything but commit cannot even be planned again. */
  lemma RecoverableExactly(job: Job, limits: seq<nat>)
    requires Plain(job) && Standing(job) && job.Accepted() && |limits| == |job.Removes(job.prev)|
    ensures Recoverable(job) <==>
            forall cut :: Stops(job, false, limits, cut) ==> Again(job, Exec(job.view.tree, cut)).Accepted()
  {
    if Recoverable(job) {
      forall cut | Stops(job, false, limits, cut) ensures Again(job, Exec(job.view.tree, cut)).Accepted() {
        CutIsAccepted(job, limits, cut);
      }
    } else {
      var cut := RunAll(job.view.world, job.view.tree, Schedule(job, false, limits)).events;
      assert Stops(job, false, limits, cut);
      UncommittedIsStuck(job, limits);
    }
  }

  lemma PlacedIsStuck(job: Job, u: Tree, e: Entry, pe: Entry)
    requires Plain(job) && ValidTree(u) && e in job.next && pe in job.prev
    requires pe.target !in job.NextBy() && pe.how != Copy && e.target < pe.target
    requires e.target in u && u[e.target] == Link(LinkDest(e))
    requires job.view.world.probe(LinkDest(e) + pe.target[|e.target|..]).Fault?
    ensures !Again(job, u).Accepted()
  {
    PlainAgain(job, u);
    SightThroughLink(View(u, job.view.world), e.target, pe.target);
    AcceptedExactlyTidy(Again(job, u));
  }

  lemma UncommittedIsStuck(job: Job, limits: seq<nat>)
    requires Plain(job) && Standing(job) && job.Accepted() && |limits| == |job.Removes(job.prev)| && !Recoverable(job)
    ensures !Again(job, End(job.view.world, job.view.tree, Schedule(job, false, limits))).Accepted()
  {
    var e, pe :| e in job.next && pe in job.prev && pe.target !in job.NextBy() && pe.how != Copy && e.target < pe.target
                 && job.view.world.probe(LinkDest(e) + pe.target[|e.target|..]).Fault?;
    PlainRunSettles(job, limits);
    PlacedIsStuck(job, End(job.view.world, job.view.tree, Schedule(job, false, limits)), e, pe);
  }
}
