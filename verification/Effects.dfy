/** What each action does to whatever tree it meets: when it can be done, and what the tree is then. */
module Effects {
  import opened Paths
  import opened Trees
  import opened Manifests
  import opened Planner
  import opened Steps
  import opened Program
  import opened Verdicts
  import opened Stages

  /** Nothing is different but for directories made on the way to `p`. */
  ghost predicate OnlyTheWay(t: Tree, u: Tree, p: Path) {
    && (forall q :: q in t ==> q in u && u[q] == t[q])
    && (forall q :: q in u && q !in t ==> q < p && u[q] == Dir)
  }

  lemma OneExec(t: Tree, e: Event)
    ensures Exec(t, [e]) == Apply(t, e)
  {
    assert [e][..0] == [];
  }

  lemma ThenExec(t: Tree, es: seq<Event>, e: Event)
    ensures Exec(t, es + [e]) == Apply(Exec(t, es), e)
  {
    assert (es + [e])[..|es + [e]| - 1] == es;
  }

  /** A pre-removal takes its link exactly while it is as recorded, and fails on anything else. */
  lemma PreDropExactly(v: View, e: Entry)
    ensures RunOne(v, PreDrop(e)).done <==> Live(v.tree, e)
    ensures Exec(v.tree, RunOne(v, PreDrop(e)).events) == if Live(v.tree, e) then Without(v.tree, e.target) else v.tree
  {
    OneExec(v.tree, Drop(e.target, LinkDest(e)));
  }

  /** The rmdir of a migration takes what holds nothing, is content with what is not there, and fails on
      the rest. */
  lemma PreRmDirExactly(v: View, d: Path)
    requires d != []
    ensures RunOne(v, PreRmDir(d)).done <==> if d in v.tree then Vacant(v.tree, d) else Lstat(v, d) == NotExist
    ensures Exec(v.tree, RunOne(v, PreRmDir(d)).events)
            == if d in v.tree && Vacant(v.tree, d) then Without(v.tree, d) else v.tree
  {
    hide Lstat;
    OneExec(v.tree, RmDir(d));
  }

  /** A backup renames what stands at its target, exactly if the aside is free. */
  lemma BackupExactly(v: View, e: Entry, aside: Path)
    requires ValidTree(v.tree) && aside != [] && aside != e.target && Parent(aside) == Parent(e.target)
    ensures RunOne(v, DoBackup(e, aside)).done <==> e.target in v.tree && aside !in v.tree
    ensures Exec(v.tree, RunOne(v, DoBackup(e, aside)).events)
            == if e.target in v.tree && aside !in v.tree then Moved(v.tree, e.target, aside) else v.tree
  {
    if e.target in v.tree && aside !in v.tree { SiblingIsPlain(v, e.target, aside); }
    hide Lstat;
    OneExec(v.tree, BackUp(e.target, aside));
  }

  lemma SiblingIsPlain(v: View, p: Path, x: Path)
    requires ValidTree(v.tree) && p != [] && x != [] && Parent(x) == Parent(p) && p in v.tree && x !in v.tree
    ensures Lstat(v, x) == NotExist
  {
    ThreeWays(v.tree, p);
    forall k | 0 <= k < |x| && x[..k] in v.tree ensures v.tree[x[..k]] == Dir {
      assert x[..k] == Parent(x)[..k] == p[..k];
    }
    NotThere(v, x);
  }

  /** A new link is made exactly where nothing stands and directories can be made down to it. What is there
      is never replaced. */
  lemma PlaceNewExactly(v: View, e: Entry)
    requires ValidTree(v.tree)
    ensures RunOne(v, DoPlace(e, PlaceNew)).done <==> Vacancy(v.tree, e.target)
    ensures var u := Exec(v.tree, RunOne(v, DoPlace(e, PlaceNew)).events);
            if Vacancy(v.tree, e.target) then u == WithParents(v.tree, e.target, |e.target|)[e.target := Link(LinkDest(e))]
            else u == v.tree
  {
    var t, p := v.tree, e.target;
    if WayClear(t, p) {
      ParentsRun(t, p, |p|);
      if p in t { ParentsAllThere(t, p); }
      ThenExec(t, Parents(t, p, |p|), LinkNew(p, LinkDest(e)));
    }
    hide WayClear, Parents, WithParents;
  }

  /** A re-link goes through exactly where a link stands, wherever it points. */
  lemma PlaceAgainExactly(v: View, e: Entry, kind: PlaceKind)
    requires ValidTree(v.tree) && kind != PlaceNew
    ensures RunOne(v, DoPlace(e, kind)).done <==> e.target in v.tree && v.tree[e.target].Link?
    ensures var u := Exec(v.tree, RunOne(v, DoPlace(e, kind)).events);
            if e.target in v.tree && v.tree[e.target].Link? then u == v.tree[e.target := Link(LinkDest(e))]
            else OnlyTheWay(v.tree, u, e.target)
  {
    var t, p := v.tree, e.target;
    if p in t { ParentsAllThere(t, p); }
    if WayClear(t, p) {
      ParentsRun(t, p, |p|);
      MadeOnTheWayOnly(t, p);
    }
    if p in t && t[p].Link? {
      var d, l := Detach(p, t[p].dest), Relink(p, LinkDest(e));
      assert [] + [d, l] == [d] + [l];
      OneExec(t, d);
      ThenExec(t, [d], l);
      assert Without(t, p)[p := Link(LinkDest(e))] == t[p := Link(LinkDest(e))];
    }
    hide WayClear, Parents, WithParents;
  }

  lemma MadeOnTheWayOnly(t: Tree, p: Path)
    ensures OnlyTheWay(t, WithParents(t, p, |p|), p)
  {
  }

  /** A place-once copy goes through exactly if the source is there, directories can be made down to the
      target, and what may stand there gives way; the target then holds the source. Else nothing is written
      but directories on the way. */
  lemma CopyExactly(v: View, e: Entry)
    requires ValidTree(v.tree)
    ensures RunOne(v, DoCopy(e)).done <==>
              && v.world.probe(LinkDest(e)).Found? && WayClear(v.tree, e.target)
              && (e.target in v.tree ==> Fits(v.tree, e.target, v.world.content(LinkDest(e))))
    ensures var u := Exec(v.tree, RunOne(v, DoCopy(e)).events);
            if RunOne(v, DoCopy(e)).done then
              u == Grafted(WithParents(v.tree, e.target, |e.target|), e.target, v.world.content(LinkDest(e)))
            else OnlyTheWay(v.tree, u, e.target)
  {
    hide WayClear, Parents, WithParents, Fits, Grafted, Exec, OnlyTheWay;
    var t, p := v.tree, e.target;
    if WayClear(t, p) { CopyWrites(t, p, v.world.content(LinkDest(e))); } else { NothingElse(t, p); }
  }

  lemma NothingElse(t: Tree, p: Path)
    ensures Exec(t, []) == t && OnlyTheWay(t, t, p)
  {
  }

  lemma CopyWrites(t: Tree, p: Path, sub: Tree)
    requires ValidTree(t) && WayClear(t, p)
    ensures Exec(t, Parents(t, p, |p|) + [OpenCopy(p)]) == WithParents(t, p, |p|)
    ensures Exec(t, Parents(t, p, |p|) + [OpenCopy(p), Graft(p, sub, false)]) == Grafted(WithParents(t, p, |p|), p, sub)
    ensures OnlyTheWay(t, WithParents(t, p, |p|), p)
  {
    ParentsRun(t, p, |p|);
    MadeOnTheWayOnly(t, p);
    hide *;
    var parents, o, g := Parents(t, p, |p|), OpenCopy(p), Graft(p, sub, false);
    ThenExec(t, parents, o);
    ThenExec(t, parents + [o], g);
    CopyApplies(WithParents(t, p, |p|), p, sub);
    assert parents + [o] + [g] == parents + [o, g];
  }

  lemma CopyApplies(t: Tree, p: Path, sub: Tree)
    ensures Apply(t, OpenCopy(p)) == t && Apply(t, Graft(p, sub, false)) == Grafted(t, p, sub)
  {
    hide Grafted;
  }

  /** A stale removal takes its link exactly while it is as recorded, with as many of the ancestors it
      leaves empty as the system lets go; a link that drifted is kept, and that is no failure. */
  lemma DropExactly(v: View, e: Entry, limit: nat)
    requires ValidTree(v.tree)
    ensures RunOne(v, DoDrop(e, limit)).done <==> StillRecorded(v, e) ==> e.target in v.tree
    ensures Exec(v.tree, RunOne(v, DoDrop(e, limit)).events)
            == if Live(v.tree, e) then Trim(Without(v.tree, e.target), Parent(e.target), limit) else v.tree
  {
    var t, p := v.tree, e.target;
    if Live(t, e) {
      NothingBeneath(t, p);
      RemovalValid(t, p);
      PrunesEnd(Without(t, p), Parent(p), limit);
      ExecConcat(t, [Drop(p, LinkDest(e))], Prunes(Without(t, p), Parent(p), limit));
      OneExec(t, Drop(p, LinkDest(e)));
    }
    hide Prunes, Trim;
  }
}
