/** Which directories a whole stage of stale removals takes with it. */
module Emptied {
  import opened Sequences
  import opened Paths
  import opened Trees
  import opened Manifests
  import opened Planner
  import opened Steps
  import opened Program
  import opened Runs
  import opened Stages
  import opened Safety
  import Reports

  /** A directory with nothing in it but links of `gone` and the directories leading to them, and at
      least one such link. */
  ghost predicate Hollowed(t: Tree, gone: set<Path>, d: Path) {
    && d != [] && d in t && t[d] == Dir
    && Leads(gone, d)
    && forall q :: q in t && d < q ==> q in gone || (t[q] == Dir && Leads(gone, q))
  }

  /** The directory lies strictly above a link of `gone`. */
  ghost predicate Leads(gone: set<Path>, d: Path) {
    exists r :: r in gone && d < r
  }

  /** The links are gone, with exactly the directories they leave hollow; the rest stands. */
  ghost predicate Swept(t: Tree, u: Tree, gone: set<Path>) {
    && (forall q :: q in u ==> q in t && u[q] == t[q])
    && forall q :: q in t ==> (q in u <==> q !in gone && !Hollowed(t, gone, q))
  }

  lemma LeadsMore(gone: set<Path>, r: Path, d: Path)
    ensures Leads(gone + {r}, d) <==> Leads(gone, d) || d < r
  {
    if d < r { assert r in gone + {r}; }
    if Leads(gone, d) {
      var x :| x in gone && d < x;
      assert x in gone + {r};
    }
  }

  /** One more link makes no difference to a directory that is not above it. */
  lemma HollowElsewhere(t: Tree, gone: set<Path>, r: Path, d: Path)
    requires r !in gone && !(d < r)
    ensures Hollowed(t, gone + {r}, d) <==> Hollowed(t, gone, d)
  {
    LeadsMore(gone, r, d);
    forall q | d < q ensures q != r && (Leads(gone + {r}, q) <==> Leads(gone, q)) {
      LeadsMore(gone, r, q);
    }
  }

  /** Above the link: what is left there is the chain down to the link, or it is not hollow yet. */
  lemma HollowAbove(t: Tree, u: Tree, gone: set<Path>, r: Path, d: Path)
    requires ValidTree(t) && Swept(t, u, gone) && ValidTree(u)
    requires r in u && r !in gone && u[r].Link? && d != [] && d < r
    ensures Hollowed(t, gone + {r}, d) <==> forall q :: q in u && d < q ==> q <= r
  {
    AncestorsAreDirs(t, r, d);
    LeadsMore(gone, r, d);
    if forall q :: q in u && d < q ==> q <= r {
      forall q | q in t && d < q ensures q in gone + {r} || (t[q] == Dir && Leads(gone + {r}, q)) {
        LeadsMore(gone, r, q);
        if q in u { OnTheChain(t, r, q); }
      }
    }
    if Hollowed(t, gone + {r}, d) {
      forall q | q in u && d < q ensures q <= r { StrayIsHollow(t, u, gone, r, d, q); }
    }
  }

  lemma OnTheChain(t: Tree, r: Path, q: Path)
    requires ValidTree(t) && r in t && q <= r
    ensures q in t && (q == r || (t[q] == Dir && q < r))
  {
    SameOrAbove(q, r);
    if q < r { AncestorsAreDirs(t, r, q); }
  }

  /** A directory beside the way to the link is hollow already. */
  lemma StrayHollow(t: Tree, gone: set<Path>, r: Path, d: Path, q: Path)
    requires Hollowed(t, gone + {r}, d) && q in t && d < q && q !in gone + {r} && !(q < r)
    ensures Hollowed(t, gone, q)
  {
    LeadsMore(gone, r, q);
    forall x | x in t && q < x ensures x in gone || (t[x] == Dir && Leads(gone, x)) {
      Beside(d, q, x, r);
      LeadsMore(gone, r, x);
    }
  }

  lemma Beside(d: Path, q: Path, x: Path, r: Path)
    requires d < q < x && !(q < r)
    ensures d < x && !(x < r) && x != r
  {
  }

  lemma StrayIsHollow(t: Tree, u: Tree, gone: set<Path>, r: Path, d: Path, q: Path)
    requires Swept(t, u, gone) && Hollowed(t, gone + {r}, d) && q in u && d < q && r !in gone
    ensures q <= r
  {
    if q != r && !(q < r) { StrayHollow(t, gone, r, d, q); }
  }

  lemma UpOf(dir: Path, d: Path)
    requires d <= dir && d != []
    ensures |dir| - |d| < |dir| && Up(dir, |dir| - |d|) == d
  {
  }

  /** What the pruning after one removal takes, told by the directory. */
  lemma PrunedExactly(t: Tree, dir: Path, limit: nat, d: Path)
    requires ValidTree(t) && dir in t && t[dir] == Dir && limit >= |dir| && d != [] && d <= dir
    ensures d !in Trim(t, dir, limit) <==> LeftEmpty(t, d, dir)
  {
    UpOf(dir, d);
    PruningIsExact(t, dir, limit, |dir| - |d|);
    TrimByHeight(t, dir, limit, d);
    PrunesHeight(t, dir, limit);
  }

  lemma {:induction false} TrimByHeight(t: Tree, dir: Path, limit: nat, d: Path)
    requires ValidTree(t) && dir in t && t[dir] == Dir && d <= dir
    ensures d !in Trim(t, dir, limit) <==> |dir| - |d| < Height(t, dir, limit)
    decreases |dir|
  {
    if limit > 0 && dir != [] && Vacant(t, dir) {
      ParentStays(t, dir);
      if d == dir {
        TrimTrims(Without(t, dir), Parent(dir), limit - 1);
      } else {
        SameOrAbove(d, dir);
        AboveParent(d, dir);
        TrimByHeight(Without(t, dir), Parent(dir), limit - 1, d);
      }
    } else {
      AncestorThere(t, dir, d);
    }
  }

  lemma AncestorThere(t: Tree, dir: Path, d: Path)
    requires ValidTree(t) && dir in t && d <= dir
    ensures d in t
  {
    SameOrAbove(d, dir);
    if d < dir { AncestorsAreDirs(t, dir, d); }
  }

  // A whole stage.

  lemma DropSweeps(w: World, t: Tree, u: Tree, gone: set<Path>, e: Entry, limit: nat)
    requires ValidTree(t) && ValidTree(u) && Swept(t, u, gone)
    requires Live(t, e) && e.target !in gone && limit >= |e.target|
    ensures Swept(t, Exec(u, RunDrop(View(u, w), e, limit).events), gone + {e.target})
  {
    var p := e.target;
    LinkIsKept(t, u, gone, p);
    DropEnds(View(u, w), e, limit);
    RemovalValid(u, p) by { NothingBeneath(u, p); }
    SweepOnce(t, u, Trim(Without(u, p), Parent(p), limit), gone, p, limit);
  }

  lemma LinkIsKept(t: Tree, u: Tree, gone: set<Path>, p: Path)
    requires Swept(t, u, gone) && p in t && t[p].Link? && p !in gone
    ensures p in u && u[p] == t[p]
  {
  }

  lemma DropEnds(v: View, e: Entry, limit: nat)
    requires ValidTree(v.tree) && Live(v.tree, e) && StillRecorded(v, e)
    ensures Exec(v.tree, RunDrop(v, e, limit).events) == Trim(Without(v.tree, e.target), Parent(e.target), limit)
  {
    var p := e.target;
    var drop := Drop(p, LinkDest(e));
    LegalOne(v.tree, drop);
    NothingBeneath(v.tree, p);
    RemovalValid(v.tree, p);
    PrunesEnd(Without(v.tree, p), Parent(p), limit);
    ExecConcat(v.tree, [drop], Prunes(Without(v.tree, p), Parent(p), limit));
  }

  lemma SweepOnce(t: Tree, u: Tree, v: Tree, gone: set<Path>, p: Path, limit: nat)
    requires ValidTree(t) && ValidTree(u) && Swept(t, u, gone) && p != [] && p !in gone && p in u && u[p].Link?
    requires ValidTree(Without(u, p)) && limit >= |p| && v == Trim(Without(u, p), Parent(p), limit)
    ensures Swept(t, v, gone + {p})
  {
    var w, dir := Without(u, p), Parent(p);
    TrimTrims(w, dir, limit);
    forall q | q in t ensures q in v <==> q !in gone + {p} && !Hollowed(t, gone + {p}, q) {
      SweepAt(t, u, v, gone, p, limit, q);
    }
  }

  lemma SweepAt(t: Tree, u: Tree, v: Tree, gone: set<Path>, p: Path, limit: nat, q: Path)
    requires ValidTree(t) && ValidTree(u) && Swept(t, u, gone) && p != [] && p !in gone && p in u && u[p].Link?
    requires ValidTree(Without(u, p)) && limit >= |p| && v == Trim(Without(u, p), Parent(p), limit) && q in t
    requires Trimmed(Without(u, p), v, Parent(p)) && ValidTree(v)
    ensures q in v <==> q !in gone + {p} && !Hollowed(t, gone + {p}, q)
  {
    var w, dir := Without(u, p), Parent(p);
    if q < p && q != [] {
      HollowAbove(t, u, gone, p, q);
      AboveParent(q, p);
      ParentIsThere(u, p);
      PrunedExactly(w, dir, limit, q);
      LeftIsChain(u, p, q);
      AncestorsAreDirs(u, p, q);
    } else if q == [] {
      AncestorsAreDirs(u, p, []);
    } else {
      HollowElsewhere(t, gone, p, q);
      NotAbove(q, p);
    }
  }

  lemma NotAbove(q: Path, p: Path)
    requires p != []
    ensures q <= Parent(p) ==> q < p
  {
  }

  lemma ParentIsThere(u: Tree, p: Path)
    requires ValidTree(u) && p in u && p != []
    ensures Parent(p) in Without(u, p) && Without(u, p)[Parent(p)] == Dir
  {
  }

  lemma LeftIsChain(u: Tree, p: Path, q: Path)
    requires ValidTree(u) && p in u && p != [] && q < p
    ensures LeftEmpty(Without(u, p), q, Parent(p)) <==> forall x :: x in u && q < x ==> x <= p
  {
    if LeftEmpty(Without(u, p), q, Parent(p)) {
      forall x | x in u && q < x ensures x <= p {
        if x != p { assert x in Without(u, p); }
      }
    }
    if forall x :: x in u && q < x ==> x <= p {
      forall x | x in Without(u, p) && q < x ensures x <= Parent(p) {
        SameOrAbove(x, p);
        AboveParent(x, p);
      }
    }
  }

  lemma NothingSwept(t: Tree)
    ensures Swept(t, t, {})
  {
  }

  lemma UnlimitedInit(init: seq<RemoveAction>, r: RemoveAction, limits: seq<nat>)
    requires Unlimited(init + [r], limits)
    ensures Unlimited(init, limits[..|init|]) && r.Unlink? && limits[|init|] >= |r.entry.target|
    ensures limits == limits[..|init|] + [limits[|init|]]
  {
    assert (init + [r])[|init|] == r && forall i :: 0 <= i < |init| ==> (init + [r])[i] == init[i];
  }

  /** The paths of the listed removals that find their links. */
  function LiveOnes(t: Tree, rs: seq<RemoveAction>): set<Path> {
    set r | r in rs && r.Unlink? && Live(t, r.entry) :: r.At()
  }

  lemma LiveOnesSnoc(t: Tree, init: seq<RemoveAction>, r: RemoveAction)
    requires r.Unlink?
    ensures LiveOnes(t, init + [r]) == LiveOnes(t, init) + if Live(t, r.entry) then {r.entry.target} else {}
    ensures OncePerPath(init + [r]) ==> OncePerPath(init) && r.entry.target !in LiveOnes(t, init)
  {
    assert forall x :: x in init + [r] <==> x in init || x == r;
    if OncePerPath(init + [r]) { Reports.OnceSplit(init, r); }
  }

  lemma ApartRuns(w: World, t: Tree, rs: seq<RemoveAction>, limits: seq<nat>)
    requires ValidTree(t) && ValidWorld(w) && Reports.EachApart(w, t, rs) && |limits| == |rs|
    ensures forall r :: r in rs ==> r.Unlink?
    ensures RunAll(w, t, DropActions(rs, limits)).done
    ensures ValidTree(End(w, t, DropActions(rs, limits))) && Shrunk(t, End(w, t, DropActions(rs, limits)), rs)
  {
    DropsRun(w, t, rs, limits);
  }

  /** The stage of stale removals, the system letting every prune through: the links that are as recorded
      go, and with them exactly the directories that hold nothing but such links and directories leading
      to them. */
  lemma {:induction false} StageSweepsExactly(w: World, t: Tree, rs: seq<RemoveAction>, limits: seq<nat>)
    requires ValidTree(t) && ValidWorld(w) && Reports.EachApart(w, t, rs) && |limits| == |rs| && Unlimited(rs, limits)
    ensures forall r :: r in rs ==> r.Unlink?
    ensures ValidTree(End(w, t, DropActions(rs, limits)))
    ensures Swept(t, End(w, t, DropActions(rs, limits)), LiveOnes(t, rs))
    decreases |rs|
  {
    ApartRuns(w, t, rs, limits);
    if rs == [] {
      NothingSwept(t);
      assert LiveOnes(t, []) == {};
    } else {
      hide *;
      var init, r := rs[..|rs| - 1], rs[|rs| - 1];
      LastOf(rs);
      Reports.ButLastApart(w, t, init, r);
      UnlimitedInit(init, r, limits);
      StageSweepsExactly(w, t, init, limits[..|init|]);
      ApartRuns(w, t, init, limits[..|init|]);
      Reports.DropActionsSnoc(init, r, limits[..|init|], limits[|init|]);
      ApartIsOnce(w, t, rs);
      LiveOnesSnoc(t, init, r);
      if Live(t, r.entry) {
        OneMoreSwept(w, t, DropActions(init, limits[..|init|]), LiveOnes(t, init), r.entry, limits[|init|]);
      } else {
        OneMoreKept(w, t, DropActions(init, limits[..|init|]), LiveOnes(t, init), r.entry, limits[|init|]);
        NothingMore(LiveOnes(t, init));
      }
    }
  }

  lemma ApartIsOnce(w: World, t: Tree, rs: seq<RemoveAction>)
    requires Reports.EachApart(w, t, rs)
    ensures OncePerPath(rs)
  {
  }

  lemma NothingMore(s: set<Path>)
    ensures s + {} == s
  {
  }

  /** A removal that does not find its link leaves everything as it is. */
  lemma OneMoreKept(w: World, t: Tree, before: seq<Action>, gone: set<Path>, e: Entry, limit: nat)
    requires ValidTree(t) && RunAll(w, t, before).done && ValidTree(End(w, t, before)) && Swept(t, End(w, t, before), gone)
    requires Foreign(View(t, w), e) && !Live(t, e)
    ensures End(w, t, before + [DoDrop(e, limit)]) == End(w, t, before)
  {
    var u := End(w, t, before);
    hide *;
    SweptIsPart(t, u, gone, e);
    ForeignShrinks(w, t, u, e);
    DropIsDone(View(u, w), e, limit);
    DropIsRun(View(u, w), e, limit);
    EndsAfter(w, t, before, DoDrop(e, limit));
    NothingWritten(u);
  }

  lemma SweptIsPart(t: Tree, u: Tree, gone: set<Path>, e: Entry)
    requires Swept(t, u, gone)
    ensures (forall q :: q in u ==> q in t && u[q] == t[q]) && (Live(u, e) ==> Live(t, e))
  {
  }

  lemma OneMoreSwept(w: World, t: Tree, before: seq<Action>, gone: set<Path>, e: Entry, limit: nat)
    requires ValidTree(t) && ValidWorld(w) && RunAll(w, t, before).done
    requires ValidTree(End(w, t, before)) && Swept(t, End(w, t, before), gone)
    requires Live(t, e) && e.target !in gone && limit >= |e.target|
    ensures ValidTree(End(w, t, before + [DoDrop(e, limit)])) && Swept(t, End(w, t, before + [DoDrop(e, limit)]), gone + {e.target})
  {
    hide *;
    var u := End(w, t, before);
    DropSweeps(w, t, u, gone, e, limit);
    RunAllLegal(w, t, before + [DoDrop(e, limit)]);
    EndsAfter(w, t, before, DoDrop(e, limit));
    DropIsRun(View(u, w), e, limit);
  }

  lemma DropIsRun(v: View, e: Entry, limit: nat)
    ensures RunOne(v, DoDrop(e, limit)) == RunDrop(v, e, limit)
  {
  }

  lemma EndsAfter(w: World, t: Tree, before: seq<Action>, a: Action)
    requires RunAll(w, t, before).done
    ensures End(w, t, before + [a]) == Exec(End(w, t, before), RunOne(View(End(w, t, before), w), a).events)
  {
    hide RunOne;
    RunAllSnoc(w, t, before, a);
    ExecConcat(t, RunAll(w, t, before).events, RunOne(View(End(w, t, before), w), a).events);
  }
}
