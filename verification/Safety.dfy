/** What may be removed: the plan's removals, the removals carried out on any tree at all, and the
    ancestors pruned after them. */
module Safety {
  import opened Paths
  import opened Trees
  import opened Manifests
  import opened Planner
  import opened Steps
  import opened Undo
  import opened Program
  import opened Runs
  import opened Migrations
  import opened PlanFacts
  import opened Stages
  import opened Converge
  import opened Settle

  // As planned.

  /** An unlink the planner may plan: the link is as prev recorded it, and next drops the target or
      turns it into a copy. */
  ghost predicate MayUnlink(job: Job, e: Entry) {
    && e in job.prev && Live(job.view.tree, e)
    && (e.target in job.NextBy() ==> e.how == Symlink && exists f :: f in job.next && f.target == e.target && f.how == Copy)
  }

  lemma PreRemovalIsSafe(job: Job, a: RemoveAction)
    requires Orderly(job) && a in job.PreRemoves(job.next)
    ensures a.Unlink? ==> MayUnlink(job, a.entry)
    ensures a.Rmdir? ==> a.dir in job.view.tree && job.view.tree[a.dir] == Dir
  {
    var e := PreRemoveIsOf(job, job.next, a);
    AskedIsThere(job, e, a);
    JudgeMeans(job, e);
  }

  /** Every planned unlink is of a link on the disk as its entry recorded it, which next drops or turns
      from symlink into copy. */
  lemma PlannedUnlinksAreSafe(job: Job, a: RemoveAction)
    requires Standing(job) && a.Unlink? && (a in job.PreRemoves(job.next) || a in job.Removes(job.prev))
    ensures MayUnlink(job, a.entry)
  {
    if a in job.PreRemoves(job.next) {
      PreRemovalIsSafe(job, a);
    } else {
      RemoveIsOf(job, job.prev, a);
      DoomedIsLive(job, a.entry);
    }
  }

  ghost predicate OncePerPath(actions: seq<RemoveAction>) {
    forall i, j :: 0 <= i < j < |actions| ==> actions[i].At() != actions[j].At()
  }

  lemma {:induction false} OrderedIsOnce(t: Tree, actions: seq<RemoveAction>)
    requires Ordered(t, actions)
    ensures OncePerPath(actions)
  {
    if actions != [] {
      var init, a := actions[..|actions| - 1], actions[|actions| - 1];
      OrderedIsOnce(t, init);
      forall i | 0 <= i < |init| ensures actions[i].At() != a.At() {
        assert init[i] in init;
      }
    }
  }

  lemma {:induction false} RemovesOnce(job: Job, n: nat)
    requires Distinct(job.prev) && n <= |job.prev|
    ensures OncePerPath(job.Removes(job.prev[..n]))
  {
    if n > 0 {
      var m, pe := job.prev[..n - 1], job.prev[n - 1];
      assert job.prev[..n][..n - 1] == m;
      RemovesOnce(job, n - 1);
      var before := job.Removes(m);
      forall i | 0 <= i < |before| ensures before[i].At() != pe.target {
        RemoveIsOf(job, m, before[i]);
        var k :| 0 <= k < n - 1 && m[k] == before[i].entry;
      }
    }
  }

  lemma OnceTogether(a: seq<RemoveAction>, b: seq<RemoveAction>)
    requires OncePerPath(a) && OncePerPath(b) && forall x, y :: x in a && y in b ==> x.At() != y.At()
    ensures OncePerPath(a + b)
  {
    var c := a + b;
    forall i, j | 0 <= i < j < |c| ensures c[i].At() != c[j].At() {
      if i < |a| && j >= |a| { assert c[i] in a && c[j] in b; }
    }
  }

  lemma PreRemovesOnce(job: Job)
    requires Orderly(job)
    ensures OncePerPath(job.PreRemoves(job.next))
  {
    assert job.next[..|job.next|] == job.next;
    PreRemovesOrdered(job, |job.next|);
    OrderedIsOnce(job.view.tree, job.PreRemoves(job.next));
  }

  lemma StagesApart(job: Job, a: RemoveAction, b: RemoveAction)
    requires Standing(job) && a in job.PreRemoves(job.next) && b in job.Removes(job.prev)
    ensures a.At() != b.At()
  {
    RemoveIsOf(job, job.prev, b);
    DoomedNotPreRemoved(job, b.entry);
  }

  /** No path is planned for removal twice, within a stage or across the two. */
  lemma NothingIsRemovedTwice(job: Job)
    requires Standing(job)
    ensures OncePerPath(job.PreRemoves(job.next) + job.Removes(job.prev))
  {
    PreRemovesOnce(job);
    assert job.prev[..|job.prev|] == job.prev;
    RemovesOnce(job, |job.prev|);
    forall a, b | a in job.PreRemoves(job.next) && b in job.Removes(job.prev) ensures a.At() != b.At() {
      StagesApart(job, a, b);
    }
    OnceTogether(job.PreRemoves(job.next), job.Removes(job.prev));
  }

  // On any tree.

  lemma {:induction false} LegalAt(t: Tree, es: seq<Event>, n: nat)
    requires Legal(t, es) && n < |es|
    ensures Enabled(Exec(t, es[..n]), es[n])
    decreases |es|
  {
    var init := es[..|es| - 1];
    if n < |init| {
      LegalAt(t, init, n);
      assert init[..n] == es[..n];
    } else {
      assert es[..n] == init;
    }
  }

  predicate Removal(a: Action) {
    a.PreDrop? || a.PreRmDir? || a.DoDrop?
  }

  ghost predicate TakesAway(u: Tree, actions: seq<Action>, e: Event) {
    || (&& e.Drop? && e.path in u && u[e.path] == Link(e.dest)
        && exists a :: a in actions && !a.PreRmDir? && a.entry.target == e.path && LinkDest(a.entry) == e.dest)
    || (e.RmDir? && e.path in u && Vacant(u, e.path) && (u[e.path] == Dir || PreRmDir(e.path) in actions))
  }

  /** Whatever happened to the tree since planning, the removal stages take a node away only if at that
      moment it is a link matching the record of the action's entry, or an empty directory, or -- for a
      planned rmdir -- something that is not a directory any more. */
  lemma RemovalsAreVerified(w: World, t: Tree, actions: seq<Action>, n: nat)
    requires ValidTree(t) && ValidWorld(w) && (forall a :: a in actions ==> Removal(a))
    requires n < |RunAll(w, t, actions).events|
    ensures var es := RunAll(w, t, actions).events; TakesAway(Exec(t, es[..n]), actions, es[n])
  {
    var es := RunAll(w, t, actions).events;
    RunAllLegal(w, t, actions);
    LegalAt(t, es, n);
    assert es[n] in es;
    var a := RunAllFrom(w, t, actions, es[n]);
    assert Removal(a);
    if es[n].RmDir? && PreRmDir(es[n].path) !in actions { PruneTakesDirs(w, t, actions, n); }
  }

  lemma SplitAt<T>(a: seq<T>, b: seq<T>, n: nat)
    requires n < |a + b|
    ensures n < |a| ==> (a + b)[n] == a[n] && (a + b)[..n] == a[..n]
    ensures n >= |a| ==> (a + b)[n] == b[n - |a|] && (a + b)[..n] == a + b[..n - |a|]
  {
  }

  lemma OneTakesDirs(v: View, a: Action, k: nat)
    requires ValidTree(v.tree) && ValidWorld(v.world) && k < |RunOne(v, a).events|
    requires RunOne(v, a).events[k].RmDir? && PreRmDir(RunOne(v, a).events[k].path) != a
    ensures var es := RunOne(v, a).events;
            es[k].path in Exec(v.tree, es[..k]) && Exec(v.tree, es[..k])[es[k].path] == Dir
  {
    var es := RunOne(v, a).events;
    RunOneFrom(v, a);
    assert es[k] in es;
    RunOneLegal(v, a);
    LosslessAt(v.tree, es, k);
    LegalAt(v.tree, es, k);
  }

  /** A pruned ancestor is a directory. */
  lemma {:induction false} PruneTakesDirs(w: World, t: Tree, actions: seq<Action>, n: nat)
    requires ValidTree(t) && ValidWorld(w) && n < |RunAll(w, t, actions).events|
    requires RunAll(w, t, actions).events[n].RmDir? && PreRmDir(RunAll(w, t, actions).events[n].path) !in actions
    ensures var es := RunAll(w, t, actions).events;
            es[n].path in Exec(t, es[..n]) && Exec(t, es[..n])[es[n].path] == Dir
    decreases |actions|
  {
    hide RunOne, Exec;
    var init, a := actions[..|actions| - 1], actions[|actions| - 1];
    var before := RunAll(w, t, init);
    if before.done {
      var last := RunOne(View(Exec(t, before.events), w), a).events;
      SplitAt(before.events, last, n);
      if n < |before.events| {
        PruneTakesDirs(w, t, init, n);
      } else {
        RunAllLegal(w, t, init);
        OneTakesDirs(View(Exec(t, before.events), w), a, n - |before.events|);
        ExecConcat(t, before.events, last[..n - |before.events|]);
      }
    } else {
      PruneTakesDirs(w, t, init, n);
    }
  }

  lemma {:induction false} LosslessAt(t: Tree, es: seq<Event>, n: nat)
    requires Lossless(t, es) && n < |es|
    ensures es[n].RmDir? && es[n].path in Exec(t, es[..n]) ==> Exec(t, es[..n])[es[n].path] == Dir
    decreases |es|
  {
    var init := es[..|es| - 1];
    if n < |init| {
      LosslessAt(t, init, n);
      assert init[..n] == es[..n];
    } else {
      assert es[..n] == init;
    }
  }

  /** The rmdir of the pre-removal removes with os.Remove, which also removes a file or a link: what it
      takes was the planned empty directory exactly when nothing but a directory is there. */
  lemma RmDirTakesADirExactly(v: View, dir: Path)
    requires ValidTree(v.tree) && dir != [] && dir in v.tree && Vacant(v.tree, dir)
    ensures RunPreRmDir(v, dir) == Outcome([RmDir(dir)], true)
    ensures Undrifted(v.tree, PreRmDir(dir)) <==> v.tree[dir] == Dir
    ensures Lossless(v.tree, RunPreRmDir(v, dir).events) <==> v.tree[dir] == Dir
  {
    LegalOne(v.tree, RmDir(dir));
  }

  /** A file that took the place of a planned empty directory is lost for good: the run removes it, and
      unwinding puts an empty directory in its place. */
  lemma ReplacedDirectoryIsLost(w: World)
    ensures var t: Tree := map[[] := Dir, ["d"] := File("mine")];
            && ValidTree(t)
            && RunAll(w, t, [PreRmDir(["d"])]) == Outcome([RmDir(["d"])], true)
            && Exec(t, [RmDir(["d"])]) == map[[] := Dir]
            && Rooted(Journal([RmDir(["d"])]))
            && UndoAll(map[[] := Dir], Journal([RmDir(["d"])])) == map[[] := Dir, ["d"] := Dir]
  {
    var t: Tree := map[[] := Dir, ["d"] := File("mine")];
    var a := PreRmDir(["d"]);
    assert Parent(["d"]) == [];
    RunAllSnoc(w, t, [], a);
    assert [] + [a] == [a];
    assert Vacant(t, ["d"]);
    LegalOne(t, RmDir(["d"]));
    assert Without(t, ["d"]) == map[[] := Dir];
    var u: Tree := map[[] := Dir];
    assert UndoOne(u, UndoMkdir(["d"])).tree == u[["d"] := Dir];
    assert Journal([RmDir(["d"])]) == [UndoMkdir(["d"])];
    assert [UndoMkdir(["d"])][..0] == [];
  }

  // Ancestor pruning.

  /** Nothing but the chain down to `dir` is left beneath `p`. */
  ghost predicate LeftEmpty(t: Tree, p: Path, dir: Path) {
    forall q :: q in t && p < q ==> q <= dir
  }

  lemma EmptyIsChain(t: Tree, dir: Path)
    ensures Vacant(t, dir) <==> LeftEmpty(t, dir, dir)
  {
    if LeftEmpty(t, dir, dir) {
      forall q | q in t ensures !(dir < q) {}
    }
  }

  lemma ChainUp(t: Tree, dir: Path, p: Path)
    requires ValidTree(t) && dir != [] && dir in t && p < dir && LeftEmpty(t, dir, dir)
    ensures LeftEmpty(t, p, dir) <==> LeftEmpty(Without(t, dir), p, Parent(dir))
  {
    if LeftEmpty(t, p, dir) {
      forall q | q in Without(t, dir) && p < q ensures q <= Parent(dir) {
        SameOrAbove(q, dir);
        AboveParent(q, dir);
      }
    }
    if LeftEmpty(Without(t, dir), p, Parent(dir)) {
      forall q | q in t && p < q ensures q <= dir {
        if q != dir { assert q in Without(t, dir); }
      }
    }
  }

  lemma ChainStops(t: Tree, dir: Path, p: Path)
    requires p <= dir && !LeftEmpty(t, dir, dir)
    ensures !LeftEmpty(t, p, dir)
  {
    var q :| q in t && dir < q && !(q <= dir);
    assert p < q;
  }

  /** The i-th ancestor of `dir`, counted from `dir` itself. */
  function Up(dir: Path, i: nat): Path
    requires i <= |dir|
  {
    dir[..|dir| - i]
  }

  /** Innermost first, and never the root. */
  lemma {:induction false} PruningOrder(t: Tree, dir: Path, limit: nat)
    ensures |Prunes(t, dir, limit)| <= |dir|
    ensures forall i :: 0 <= i < |Prunes(t, dir, limit)| ==> Prunes(t, dir, limit)[i] == RmDir(Up(dir, i))
    decreases |dir|
  {
    var es := Prunes(t, dir, limit);
    if es != [] {
      var rest := Prunes(Without(t, dir), Parent(dir), limit - 1);
      PruningOrder(Without(t, dir), Parent(dir), limit - 1);
      forall i | 0 <= i < |es| ensures es[i] == RmDir(Up(dir, i)) {
        if i > 0 {
          assert Up(Parent(dir), i - 1) == Up(dir, i);
          assert es[i] == rest[i - 1];
        }
      }
    }
  }

  lemma ChainIsUp(t: Tree, dir: Path, i: nat)
    requires ValidTree(t) && dir != [] && dir in t && Vacant(t, dir) && 0 < i < |dir|
    ensures LeftEmpty(Without(t, dir), Up(Parent(dir), i - 1), Parent(dir)) <==> LeftEmpty(t, Up(dir, i), dir)
  {
    EmptyIsChain(t, dir);
    assert Up(Parent(dir), i - 1) == Up(dir, i);
    ChainUp(t, dir, Up(dir, i));
  }

  /** How many ancestors the upward loop takes. */
  function Height(t: Tree, dir: Path, limit: nat): nat
    decreases |dir|
  {
    if limit == 0 || dir == [] || dir !in t || t[dir] != Dir || !Vacant(t, dir) then 0
    else 1 + Height(Without(t, dir), Parent(dir), limit - 1)
  }

  lemma {:induction false} PrunesHeight(t: Tree, dir: Path, limit: nat)
    ensures |Prunes(t, dir, limit)| == Height(t, dir, limit)
    decreases |dir|
  {
    if Prunes(t, dir, limit) != [] { PrunesHeight(Without(t, dir), Parent(dir), limit - 1); }
  }

  lemma ParentStays(t: Tree, dir: Path)
    requires ValidTree(t) && dir != [] && dir in t && Vacant(t, dir)
    ensures ValidTree(Without(t, dir)) && Parent(dir) in Without(t, dir) && Without(t, dir)[Parent(dir)] == Dir
  {
    RemovalValid(t, dir);
  }

  lemma HeightHere(t: Tree, dir: Path, limit: nat)
    requires dir != [] && dir in t && t[dir] == Dir && limit > 0
    ensures 0 < Height(t, dir, limit) <==> LeftEmpty(t, Up(dir, 0), dir)
  {
    EmptyIsChain(t, dir);
    assert Up(dir, 0) == dir;
  }

  lemma HeightBlocked(t: Tree, dir: Path, limit: nat, i: nat)
    requires i < |dir| && !Vacant(t, dir)
    ensures Height(t, dir, limit) == 0 && !LeftEmpty(t, Up(dir, i), dir)
  {
    EmptyIsChain(t, dir);
    ChainStops(t, dir, Up(dir, i));
  }

  lemma {:induction false} HeightIsExact(t: Tree, dir: Path, limit: nat, i: nat)
    requires ValidTree(t) && dir in t && t[dir] == Dir && limit >= |dir| && i < |dir|
    ensures i < Height(t, dir, limit) <==> LeftEmpty(t, Up(dir, i), dir)
    decreases |dir|
  {
    if !Vacant(t, dir) {
      HeightBlocked(t, dir, limit, i);
    } else if i == 0 {
      HeightHere(t, dir, limit);
    } else {
      ParentStays(t, dir);
      HeightIsExact(Without(t, dir), Parent(dir), limit - 1, i - 1);
      ChainIsUp(t, dir, i);
    }
  }

  /** pruneEmptyAncestors, left to itself, removes the i-th ancestor up from the removed link's directory
      exactly when nothing but the chain below it is left there: the maximal chain of ancestors left
      empty. */
  lemma PruningIsExact(t: Tree, dir: Path, limit: nat, i: nat)
    requires ValidTree(t) && dir in t && t[dir] == Dir && limit >= |dir| && i < |dir|
    ensures i < |Prunes(t, dir, limit)| <==> LeftEmpty(t, Up(dir, i), dir)
  {
    PrunesHeight(t, dir, limit);
    HeightIsExact(t, dir, limit, i);
  }

  /** The pruned tree: the chain is gone, nothing else is. */
  lemma {:induction false} PruningTakesOnlyTheChain(t: Tree, dir: Path, limit: nat)
    requires ValidTree(t) && dir in t && t[dir] == Dir
    ensures ValidTree(Exec(t, Prunes(t, dir, limit)))
    ensures Trimmed(t, Exec(t, Prunes(t, dir, limit)), dir) && [] in Exec(t, Prunes(t, dir, limit))
  {
    PrunesEnd(t, dir, limit);
    TrimTrims(t, dir, limit);
  }
}
