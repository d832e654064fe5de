/** What a plan says about the tree it was computed on. */
module PlanFacts {
  import opened Paths
  import opened Trees
  import opened Manifests
  import opened Planner
  import opened Program
  import opened Migrations

  // Which entry an action comes from.

  lemma {:induction false} PlaceIsOf(job: Job, m: Manifest, a: PlaceAction)
    requires a in job.Places(m)
    ensures a.entry in m && a in job.PlaceOf(a.entry)
  {
    var init, e := m[..|m| - 1], m[|m| - 1];
    if a in job.Places(init) { PlaceIsOf(job, init, a); }
  }

  lemma {:induction false} PlaceIsListed(job: Job, m: Manifest, e: Entry, a: PlaceAction)
    requires e in m && a in job.PlaceOf(e)
    ensures a in job.Places(m)
  {
    if e != m[|m| - 1] { PlaceIsListed(job, m[..|m| - 1], e, a); }
  }

  lemma {:induction false} CopyIsOf(job: Job, m: Manifest, a: CopyAction)
    requires a in job.Copies(m)
    ensures a.entry in m && a in job.CopiesOf(a.entry)
  {
    var init, e := m[..|m| - 1], m[|m| - 1];
    if a in job.Copies(init) { CopyIsOf(job, init, a); }
  }

  lemma {:induction false} CopyIsListed(job: Job, m: Manifest, e: Entry, a: CopyAction)
    requires e in m && a in job.CopiesOf(e)
    ensures a in job.Copies(m)
  {
    if e != m[|m| - 1] { CopyIsListed(job, m[..|m| - 1], e, a); }
  }

  lemma {:induction false} BackupIsOf(job: Job, m: Manifest, a: BackupAction)
    requires a in job.Backups(m)
    ensures a.entry in m && a in job.BackupOf(a.entry)
  {
    var init, e := m[..|m| - 1], m[|m| - 1];
    if a in job.Backups(init) { BackupIsOf(job, init, a); }
  }

  lemma {:induction false} BackupIsListed(job: Job, m: Manifest, e: Entry, a: BackupAction)
    requires e in m && a in job.BackupOf(e)
    ensures a in job.Backups(m)
  {
    if e != m[|m| - 1] { BackupIsListed(job, m[..|m| - 1], e, a); }
  }

  lemma {:induction false} ConflictIsListed(job: Job, m: Manifest, e: Entry)
    requires e in m && job.Judge(e).Clash?
    ensures job.Conflicts(m) != []
  {
    if e != m[|m| - 1] { ConflictIsListed(job, m[..|m| - 1], e); }
  }

  lemma {:induction false} NoConflict(job: Job, m: Manifest)
    requires forall e :: e in m ==> !job.Judge(e).Clash?
    ensures job.Conflicts(m) == []
  {
    if m != [] {
      NoConflict(job, m[..|m| - 1]);
      assert m[|m| - 1] in m;
    }
  }

  lemma {:induction false} RemoveIsOf(job: Job, m: Manifest, a: RemoveAction)
    requires a in job.Removes(m)
    ensures a.Unlink? && a.entry in m && job.Leave(a.entry).Doomed?
  {
    var init := m[..|m| - 1];
    if a in job.Removes(init) { RemoveIsOf(job, init, a); }
  }

  lemma {:induction false} RemoveIsListed(job: Job, m: Manifest, e: Entry)
    requires e in m && job.Leave(e).Doomed?
    ensures Unlink(e) in job.Removes(m)
  {
    if e != m[|m| - 1] { RemoveIsListed(job, m[..|m| - 1], e); }
  }

  lemma {:induction false} MarkIsListed(job: Job, m: Manifest, e: Entry, t: Path)
    requires e in m && t in job.MarksOf(e)
    ensures t in job.Marks(m)
  {
    if e != m[|m| - 1] { MarkIsListed(job, m[..|m| - 1], e, t); }
  }

  lemma {:induction false} MarkIsOf(job: Job, m: Manifest, t: Path) returns (e: Entry)
    requires t in job.Marks(m)
    ensures e in m && t in job.MarksOf(e)
  {
    e := m[|m| - 1];
    if t !in job.MarksOf(e) { e := MarkIsOf(job, m[..|m| - 1], t); }
  }

  // The walk down to a target.

  /** No existing component strictly above `target` is a symlink. */
  ghost predicate Linkless(t: Tree, target: Path, k: nat) {
    forall j :: k <= j < |target| && target[..j] in t ==> !t[target[..j]].Link?
  }

  lemma {:induction false} AncestorWalk(job: Job, target: Path, k: nat)
    requires job.Valid() && 1 <= k
    requires forall j :: 0 <= j < k && j < |target| ==> target[..j] in job.view.tree && job.view.tree[target[..j]] == Dir
    ensures match job.AncestorSymlink(target, k)
            case LinkAt(link) =>
              && link < target && link != [] && link in job.view.tree && job.view.tree[link].Link?
              && (forall j :: 0 <= j < |link| ==> target[..j] in job.view.tree && job.view.tree[target[..j]] == Dir)
            case NoLink => Linkless(job.view.tree, target, 0)
            case Unreadable => true
    decreases |target| - k
  {
    var t := job.view.tree;
    if k < |target| {
      var q := target[..k];
      if q !in t {
        var near := Nearest(t, q);
        assert near < q;
        assert near == target[..|near|];
        forall j | 0 <= j < |target| && target[..j] in t ensures !t[target[..j]].Link? {
          if j > k { AncestorsAreDirs(t, target[..j], q); }
        }
      } else if t[q] == Dir {
        AncestorWalk(job, target, k + 1);
      } else if t[q].Link? {
      } else {
        FileAbove(job, target, k);
      }
    }
  }

  /** With a file on the way the walk ends in an lstat error, or right above the target. */
  lemma FileAbove(job: Job, target: Path, k: nat)
    requires job.Valid() && 1 <= k < |target|
    requires forall j :: 0 <= j < k ==> target[..j] in job.view.tree && job.view.tree[target[..j]] == Dir
    requires target[..k] in job.view.tree && job.view.tree[target[..k]].File?
    ensures match job.AncestorSymlink(target, k)
            case LinkAt(_) => false
            case NoLink => Linkless(job.view.tree, target, 0)
            case Unreadable => true
  {
    var t := job.view.tree;
    var q := target[..k];
    NothingBeneath(t, q);
    forall j | k < j <= |target| ensures target[..j] !in t { assert q < target[..j]; }
    assert job.AncestorSymlink(target, k) == job.AncestorSymlink(target, k + 1);
    if k + 1 < |target| {
      var r := target[..k + 1];
      var near := Nearest(t, r);
      assert |near| <= k by { assert near == r[..|near|] == target[..|near|]; }
      assert r[..k] == q;
      assert |near| >= k;
      assert near == q;
      assert Lstat(job.view, r) == Fault;
    }
  }

  lemma AncestorStart(job: Job, target: Path)
    requires job.Valid()
    ensures forall j :: 0 <= j < 1 && j < |target| ==> target[..j] in job.view.tree && job.view.tree[target[..j]] == Dir
  {
    assert target[..0] == [];
  }

  /** Without a symlink on the way lstat looks at the tree itself. */
  lemma LstatInside(job: Job, target: Path)
    requires job.Valid() && Linkless(job.view.tree, target, 0)
    ensures Lstat(job.view, target).Found? ==>
              target in job.view.tree && Lstat(job.view, target).node == job.view.tree[target]
    ensures Lstat(job.view, target).NotExist? ==> target !in job.view.tree && WayClear(job.view.tree, target)
  {
    var t := job.view.tree;
    if target !in t {
      var near := Nearest(t, target);
      assert near == target[..|near|] && near in t;
      if t[near] == Dir {
        forall k | 0 <= k < |target| && target[..k] in t ensures t[target[..k]] == Dir {
          if k < |near| { AncestorsAreDirs(t, near, target[..k]); }
          else { assert k == |near|; }
        }
      }
    }
  }

  lemma AsideMeans(job: Job, e: Entry)
    requires job.Valid()
    ensures job.JudgeAside(e, true).Aside? || job.JudgeAside(e, false).Aside? ==>
              Lstat(job.view, WithSuffix(e.target, job.opts.Suffix())).NotExist?
              && WithSuffix(e.target, job.opts.Suffix()) !in job.view.tree
  {
  }

  /** What a verdict says about the tree. */
  ghost predicate Means(job: Job, e: Entry, verdict: Verdict) {
    var t, p := job.view.tree, e.target;
    match verdict
    case Broken => true
    case Free => p !in t && WayClear(t, p) && (e.how == Symlink || e.how == Copy)
    case Nested(link) =>
      && link < p && link != [] && link in t && p !in t && (e.how == Symlink || e.how == Copy)
      && link in job.PrevBy() && t[link] == Link(LinkDest(job.PrevBy()[link])) && link !in job.NextBy()
      && (forall k :: 0 <= k < |link| ==> p[..k] in t && t[p[..k]] == Dir)
    case Relinked(recorded) => e.how == Symlink && p in t && t[p].Link? && (recorded <==> job.RecordedLink(p))
    case Migrate(actions) => e.how == Symlink && p in t && t[p] == Dir && job.MigrateDir(p) == Migratable(actions)
    case Aside(sweeps) =>
      && job.opts.backup && p in t && (e.how == Symlink || e.how == Copy)
      && WithSuffix(p, job.opts.Suffix()) !in t
      && Lstat(job.view, WithSuffix(p, job.opts.Suffix())).NotExist?
      && (e.how == Symlink && t[p] == Dir ==> sweeps)
      && (sweeps ==> e.how == Symlink && t[p] == Dir)
    case Clash(_, _) => true
    case Converted =>
      && e.how == Copy && p in t && p in job.PrevBy() && job.PrevBy()[p].how == Symlink
      && t[p] == Link(LinkDest(job.PrevBy()[p]))
    case KeptCopy =>
      && e.how == Copy && p in t && SameKind(job, e) && p in job.PrevBy() && job.PrevBy()[p].how == Copy
    case ForeignCopy => e.how == Copy && p in t && SameKind(job, e)
  }

  /** The existing copy target and its source are both directories or both not. */
  predicate SameKind(job: Job, e: Entry) {
    && e.target in job.view.tree
    && job.view.world.probe(LinkDest(e)).Found?
    && (job.view.world.probe(LinkDest(e)).node.Dir? <==> job.view.tree[e.target].Dir?)
  }

  lemma JudgeMeans(job: Job, e: Entry)
    requires job.Valid()
    ensures Means(job, e, job.Judge(e))
  {
    AncestorStart(job, e.target);
    AncestorWalk(job, e.target, 1);
    AsideMeans(job, e);
    match job.AncestorSymlink(e.target, 1)
    case Unreadable =>
    case LinkAt(link) =>
      NothingBeneath(job.view.tree, link);
      assert Lstat(job.view, link) == Found(job.view.tree[link]);
      assert forall k :: 0 <= k < |link| ==> link[..k] == e.target[..k];
    case NoLink =>
      LstatInside(job, e.target);
      match e.how
      case Symlink =>
      case Copy => CopyMeans(job, e);
      case OtherMethod =>
  }

  lemma CopyMeans(job: Job, e: Entry)
    requires job.Valid() && e.how == Copy && Linkless(job.view.tree, e.target, 0)
    ensures Means(job, e, job.JudgeCopy(e))
  {
    LstatInside(job, e.target);
    AsideMeans(job, e);
  }

  // The pre-removals.

  /** The pre-removals an entry asks for. */
  predicate Asks(job: Job, e: Entry, a: RemoveAction) {
    match job.Judge(e)
    case Nested(link) => link in job.PrevBy() && a == Unlink(job.PrevBy()[link])
    case Converted => e.target in job.PrevBy() && a == Unlink(job.PrevBy()[e.target])
    case Migrate(actions) => a in actions || a == Rmdir(e.target)
    case _ => false
  }

  lemma {:induction false} PreRemoveIsOf(job: Job, m: Manifest, a: RemoveAction) returns (e: Entry)
    requires a in job.PreRemoves(m)
    ensures e in m && Asks(job, e, a)
  {
    e := m[|m| - 1];
    if !Asks(job, e, a) { e := PreRemoveIsOf(job, m[..|m| - 1], a); }
  }

  /** What an entry asks for is on the disk as it expects. */
  lemma AskedIsThere(job: Job, e: Entry, a: RemoveAction)
    requires job.Valid() && Asks(job, e, a)
    ensures a.At() in job.view.tree && a.At() != []
    ensures a.Unlink? ==>
              && job.view.tree[a.At()] == Link(LinkDest(a.entry)) && a.At() in job.PrevBy()
              && a.entry == job.PrevBy()[a.At()] && (a.At() in job.NextBy() ==> a.At() == e.target && e.how == Copy)
    ensures a.Rmdir? ==> job.view.tree[a.At()] == Dir
    ensures job.Judge(e).Nested? ==> a.Unlink? && a.At() < e.target && a.At() !in job.NextBy()
    ensures job.Judge(e).Converted? ==> a.Unlink? && a.At() == e.target
    ensures job.Judge(e).Migrate? ==> e.target <= a.At() && (a.Unlink? ==> a.At() !in job.NextBy())
  {
    JudgeMeans(job, e);
    if job.Judge(e).Migrate? {
      MigrateDirFacts(job, e.target);
      if a in job.Judge(e).actions {
        assert a.At() in At(job.Judge(e).actions);
        assert a.At() in StrictlyBelow(job.view.tree, e.target);
        if a.Unlink? { assert Lstat(job.view, a.At()) == Found(job.view.tree[a.At()]); }
      }
    }
  }

  lemma {:induction false} UnlinksAreMarked(job: Job, m: Manifest, a: RemoveAction)
    requires job.Valid() && a in job.PreRemoves(m) && a.Unlink?
    ensures a.At() in job.Marks(m)
  {
    var e := PreRemoveIsOf(job, m, a);
    AskedIsThere(job, e, a);
    assert a.At() in job.MarksOf(e);
    MarkIsListed(job, m, e, a.At());
  }

  lemma EarlierIsApart(m: Manifest, n: nat, e: Entry)
    requires PrefixFree(m) && n < |m| && e in m[..n]
    ensures !(e.target <= m[n].target) && !(m[n].target <= e.target)
  {
    var i :| 0 <= i < n && m[..n][i] == e;
  }

  /** Two pre-removals asked for by different entries never name one path, but for an ancestor link
      that several entries lie under. */
  lemma AskedApart(job: Job, n: nat, e: Entry, a: RemoveAction, b: RemoveAction)
    requires job.Valid() && PrefixFree(job.next) && n < |job.next| && e in job.next[..n]
    requires Asks(job, e, a) && Asks(job, job.next[n], b) && a.At() == b.At()
    ensures !job.Judge(job.next[n]).Migrate?
    ensures a.Unlink? && b.Unlink?
  {
    var f := job.next[n];
    EarlierIsApart(job.next, n, e);
    AskedIsThere(job, e, a);
    AskedIsThere(job, f, b);
    if job.Judge(f).Migrate? {
      assert f.target <= a.At();
      if job.Judge(e).Migrate? { Comparable(e.target, f.target, a.At()); }
      assert false;
    }
    if job.Judge(e).Migrate? && b.Unlink? {
      assert e.target <= b.At();
    }
  }

  lemma PreRemoveOfOrdered(job: Job, e: Entry, marked: set<Path>)
    requires job.Valid()
    ensures Ordered(job.view.tree, job.PreRemoveOf(e, marked))
    ensures forall a :: a in job.PreRemoveOf(e, marked) ==> Asks(job, e, a)
  {
    JudgeMeans(job, e);
    var t := job.view.tree;
    match job.Judge(e)
    case Nested(link) =>
      var a := Unlink(job.PrevBy()[link]);
      OrderedSnoc(t, [], a);
      assert [] + [a] == [a];
    case Converted =>
      var a := Unlink(job.PrevBy()[e.target]);
      OrderedSnoc(t, [], a);
      assert [] + [a] == [a];
    case Migrate(actions) =>
      MigrateDirFacts(job, e.target);
      OrderedSnoc(t, actions, Rmdir(e.target));
    case _ =>
  }

  /** PreRemove is executable as listed: the whole list, over all entries, is ordered. */
  lemma {:induction false} PreRemovesOrdered(job: Job, n: nat)
    requires job.Valid() && PrefixFree(job.next) && n <= |job.next|
    ensures Ordered(job.view.tree, job.PreRemoves(job.next[..n]))
  {
    if n > 0 {
      var m := job.next[..n - 1];
      var e := job.next[n - 1];
      assert job.next[..n][..n - 1] == m;
      PreRemovesOrdered(job, n - 1);
      PreRemoveOfOrdered(job, e, job.Marks(m));
      var before, more := job.PreRemoves(m), job.PreRemoveOf(e, job.Marks(m));
      forall p | p in At(before) && p in At(more) ensures false {
        var a :| a in before && a.At() == p;
        var b :| b in more && b.At() == p;
        var f := PreRemoveIsOf(job, m, a);
        AskedApart(job, n - 1, f, a, b);
        UnlinksAreMarked(job, m, a);
        AskedIsThere(job, e, b);
      }
      OrderedConcat(job.view.tree, before, more);
    }
  }

  /** The entry's directory could not be migrated and `--backup` is to take it away as a whole. */
  predicate Sweeps(job: Job, e: Entry) {
    match job.Judge(e)
    case Aside(sweeps) => sweeps
    case Clash(_, sweeps) => sweeps
    case _ => false
  }

  /** A dropped target taken off the remove side is pre-removed, or goes with a backed-up directory. */
  lemma {:induction false} MarkedIsPreRemoved(job: Job, m: Manifest, t: Path)
    requires job.Valid() && t in job.Marks(m) && t !in job.NextBy()
    requires forall e :: e in m ==> e in job.next
    ensures t in At(job.PreRemoves(m)) || exists e :: e in m && Sweeps(job, e) && e.target <= t
  {
    var init, e := m[..|m| - 1], m[|m| - 1];
    AtConcat(job.PreRemoves(init), job.PreRemoveOf(e, job.Marks(init)));
    if t in job.Marks(init) {
      MarkedIsPreRemoved(job, init, t);
      if t !in At(job.PreRemoves(init)) {
        var f :| f in init && Sweeps(job, f) && f.target <= t;
        assert f in m;
      }
    } else {
      JudgeMeans(job, e);
      assert e in m;
      match job.Judge(e)
      case Nested(link) => assert Unlink(job.PrevBy()[link]) in job.PreRemoveOf(e, job.Marks(init));
      case Migrate(actions) =>
        MigrateDirFacts(job, e.target);
        var a :| a in actions && a.Unlink? && a.entry.target == t;
        assert a in job.PreRemoveOf(e, job.Marks(init));
      case _ =>
    }
  }
}
