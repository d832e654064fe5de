/** What each stage after PreRemove does to a tree that is ready for it. */
module Stages {
  import opened Sequences
  import opened Paths
  import opened Trees
  import opened Manifests
  import opened Planner
  import opened Steps
  import opened Program
  import opened Runs

  predicate Apart(p: Path, q: Path) {
    !(p <= q) && !(q <= p)
  }

  // Backup.

  function BackupActions(bs: seq<BackupAction>): seq<Action> {
    if bs == [] then []
    else BackupActions(bs[..|bs| - 1]) + [DoBackup(bs[|bs| - 1].entry, bs[|bs| - 1].aside)]
  }

  ghost predicate BackupApart(bs: seq<BackupAction>) {
    && (forall b :: b in bs ==> b.aside != [] && Parent(b.aside) == Parent(b.entry.target) && b.aside != b.entry.target)
    && forall i, j :: 0 <= i < j < |bs| ==>
         && Apart(bs[i].entry.target, bs[j].entry.target) && Apart(bs[i].aside, bs[j].aside)
         && Apart(bs[i].aside, bs[j].entry.target) && Apart(bs[i].entry.target, bs[j].aside)
  }

  ghost predicate BackupReady(t: Tree, bs: seq<BackupAction>) {
    forall b :: b in bs ==> b.entry.target in t && b.aside !in t
  }

  predicate Renamed(bs: seq<BackupAction>, q: Path) {
    exists b :: b in bs && (b.entry.target <= q || b.aside <= q)
  }

  /** Every listed subtree changed its name to the aside, and nothing else changed. */
  ghost predicate Relocated(t: Tree, u: Tree, bs: seq<BackupAction>) {
    && (forall q :: !Renamed(bs, q) ==> (q in u <==> q in t))
    && (forall q :: !Renamed(bs, q) && q in t ==> u[q] == t[q])
    && (forall b, q :: b in bs && b.entry.target <= q ==> q !in u)
    && (forall b, q :: b in bs && b.aside <= q ==> (q in u <==> Rebase(q, b.aside, b.entry.target) in t))
    && (forall b, q :: b in bs && b.aside <= q && q in u ==> u[q] == t[Rebase(q, b.aside, b.entry.target)])
  }

  lemma SiblingIsAbsent(v: View, p: Path, aside: Path)
    requires ValidTree(v.tree) && p in v.tree && p != [] && aside != [] && Parent(aside) == Parent(p) && aside !in v.tree
    ensures Lstat(v, aside).NotExist?
  {
    var near, k := Nearest(v.tree, aside), |aside| - 1;
    assert aside[..k] == Parent(aside) == Parent(p);
    assert |near| >= k;
    assert near == aside[..|near|];
    assert near != aside;
    assert near == Parent(p);
  }

  lemma BackupStep(t: Tree, u: Tree, init: seq<BackupAction>, b: BackupAction)
    requires ValidTree(t) && ValidTree(u) && Relocated(t, u, init)
    requires BackupApart(init + [b]) && BackupReady(t, init + [b])
    ensures b.entry.target in u && b.aside !in u
    ensures Relocated(t, Moved(u, b.entry.target, b.aside), init + [b])
  {
    var bs := init + [b];
    var p, a := b.entry.target, b.aside;
    assert bs[|init|] == b && b in bs;
    forall c | c in init
      ensures Apart(c.entry.target, p) && Apart(c.aside, a) && Apart(c.aside, p) && Apart(c.entry.target, a)
    {
      var i :| 0 <= i < |init| && init[i] == c;
      assert bs[i] == c;
    }
    assert !Renamed(init, p) && !Renamed(init, a);
    MovedValid(u, p, a);
    MovedAt(u, p, a);
    var w := Moved(u, p, a);
    forall q | p <= q || a <= q ensures !Renamed(init, q) {
      forall c | c in init ensures !(c.entry.target <= q) && !(c.aside <= q) {
        if c.entry.target <= q { NotUnderBoth(c.entry.target, p, a, q); }
        if c.aside <= q { NotUnderBoth(c.aside, p, a, q); }
      }
    }
    forall q | !Renamed(bs, q) ensures (q in w <==> q in t) && (q in t ==> w[q] == t[q]) {
      assert !(p <= q) && !(a <= q);
      assert forall c :: c in init ==> c in bs;
      assert !Renamed(init, q);
    }
    forall c, q | c in bs && c.entry.target <= q ensures q !in w {
      if c in init { NotUnderBoth(c.entry.target, p, a, q); }
    }
    forall c, q | c in bs && c.aside <= q
      ensures (q in w <==> Rebase(q, c.aside, c.entry.target) in t)
      ensures q in w ==> w[q] == t[Rebase(q, c.aside, c.entry.target)]
    {
      if c in init {
        NotUnderBoth(c.aside, p, a, q);
      } else {
        RebaseBack(q, a, p);
        assert !Renamed(init, Rebase(q, a, p));
      }
    }
  }

  lemma NotUnderBoth(x: Path, p: Path, a: Path, q: Path)
    requires x <= q && Apart(x, p) && Apart(x, a)
    ensures !(p <= q) && !(a <= q)
  {
    if p <= q { Comparable(x, p, q); }
    if a <= q { Comparable(x, a, q); }
  }

  lemma BackupOne(w: World, u: Tree, b: BackupAction)
    requires ValidTree(u) && b.entry.target in u && b.aside !in u
    requires b.aside != [] && Parent(b.aside) == Parent(b.entry.target) && b.aside != b.entry.target
    ensures RunOne(View(u, w), DoBackup(b.entry, b.aside)) == Outcome([BackUp(b.entry.target, b.aside)], true)
    ensures Exec(u, [BackUp(b.entry.target, b.aside)]) == Moved(u, b.entry.target, b.aside)
    ensures ValidTree(Moved(u, b.entry.target, b.aside))
  {
    SiblingIsAbsent(View(u, w), b.entry.target, b.aside);
    LegalOne(u, BackUp(b.entry.target, b.aside));
    MovedValid(u, b.entry.target, b.aside);
  }

  lemma {:induction false} BackupRuns(w: World, t: Tree, bs: seq<BackupAction>)
    requires ValidTree(t) && ValidWorld(w) && BackupApart(bs) && BackupReady(t, bs)
    ensures RunAll(w, t, BackupActions(bs)).done
    ensures ValidTree(End(w, t, BackupActions(bs))) && Relocated(t, End(w, t, BackupActions(bs)), bs)
    decreases |bs|
  {
    if bs != [] {
      var init, b := bs[..|bs| - 1], bs[|bs| - 1];
      LastOf(bs);
      ShorterBackups(t, init, b);
      BackupRuns(w, t, init);
      var u := End(w, t, BackupActions(init));
      BackupStep(t, u, init, b);
      OneMoreBackup(w, t, init, b);
    }
  }

  lemma ShorterBackups(t: Tree, init: seq<BackupAction>, b: BackupAction)
    requires BackupApart(init + [b]) && BackupReady(t, init + [b])
    ensures BackupApart(init) && BackupReady(t, init)
    ensures b.aside != [] && Parent(b.aside) == Parent(b.entry.target) && b.aside != b.entry.target
  {
    var bs := init + [b];
    assert bs[|init|] == b && forall i :: 0 <= i < |init| ==> bs[i] == init[i];
    forall c | c in init ensures c in bs {}
    assert b in bs;
  }

  lemma OneMoreBackup(w: World, t: Tree, init: seq<BackupAction>, b: BackupAction)
    requires RunAll(w, t, BackupActions(init)).done && ValidTree(End(w, t, BackupActions(init)))
    requires b.entry.target in End(w, t, BackupActions(init)) && b.aside !in End(w, t, BackupActions(init))
    requires b.aside != [] && Parent(b.aside) == Parent(b.entry.target) && b.aside != b.entry.target
    ensures RunAll(w, t, BackupActions(init + [b])).done
    ensures End(w, t, BackupActions(init + [b])) == Moved(End(w, t, BackupActions(init)), b.entry.target, b.aside)
    ensures ValidTree(End(w, t, BackupActions(init + [b])))
  {
    var before := RunAll(w, t, BackupActions(init));
    BackupOne(w, End(w, t, BackupActions(init)), b);
    ButLast(init, b);
    RunAllSnoc(w, t, BackupActions(init), DoBackup(b.entry, b.aside));
    ExecConcat(t, before.events, [BackUp(b.entry.target, b.aside)]);
  }

  // Place and Copies.

  function PlaceActions(ps: seq<PlaceAction>): seq<Action> {
    if ps == [] then []
    else PlaceActions(ps[..|ps| - 1]) + [DoPlace(ps[|ps| - 1].entry, ps[|ps| - 1].kind)]
  }

  function CopyActions(cs: seq<CopyAction>): seq<Action> {
    if cs == [] then [] else CopyActions(cs[..|cs| - 1]) + [DoCopy(cs[|cs| - 1].entry)]
  }

  predicate Plants(a: Action) {
    a.DoPlace? || a.DoCopy?
  }

  /** What a placement leaves at its target. */
  function Crop(w: World, a: Action): Tree
    requires Plants(a)
  {
    if a.DoPlace? then map[[] := Link(LinkDest(a.entry))] else w.content(LinkDest(a.entry))
  }

  ghost predicate PlantReady(w: World, t: Tree, a: Action)
    requires Plants(a)
  {
    var x := a.entry.target;
    match a
    case DoPlace(_, kind) => if kind == PlaceNew then x !in t && WayClear(t, x) else x in t && t[x].Link?
    case DoCopy(_) => x !in t && WayClear(t, x) && w.probe(LinkDest(a.entry)).Found?
  }

  /** The target holds the placement, its ancestors are directories, the rest is as before. */
  ghost predicate Planted(t: Tree, u: Tree, x: Path, sub: Tree) {
    && (forall q :: x <= q ==> (q in u <==> q[|x|..] in sub))
    && (forall q :: x <= q && q in u ==> u[q] == sub[q[|x|..]])
    && (forall q :: q < x ==> q in u && u[q] == Dir)
    && (forall q :: Apart(x, q) ==> (q in u <==> q in t))
    && (forall q :: Apart(x, q) && q in t ==> u[q] == t[q])
  }

  lemma WithParentsIs(t: Tree, x: Path)
    requires ValidTree(t) && WayClear(t, x)
    ensures forall q :: q in WithParents(t, x, |x|) <==> q in t || q < x
    ensures forall q :: q in t ==> WithParents(t, x, |x|)[q] == t[q]
    ensures forall q :: q < x ==> WithParents(t, x, |x|)[q] == Dir
  {
    forall q | q < x ensures q in WithParents(t, x, |x|) && WithParents(t, x, |x|)[q] == Dir {
      assert q == x[..|q|];
    }
  }

  lemma PlantedPoint(t: Tree, x: Path, sub: Tree, q: Path)
    requires ValidTree(t) && x != [] && WayClear(t, x) && (x in t ==> t[x].Link? && [] in sub)
    requires !(x < q && q in t)
    ensures var g := Grafted(WithParents(t, x, |x|), x, sub);
            && (x <= q ==> (q in g <==> q[|x|..] in sub) && (q in g ==> g[q] == sub[q[|x|..]]))
            && (q < x ==> q in g && g[q] == Dir)
            && (Apart(x, q) ==> (q in g <==> q in t) && (q in t ==> g[q] == t[q]))
  {
    WithParentsIs(t, x);
    GraftedAt(WithParents(t, x, |x|), x, sub);
    assert x <= q ==> q == x || x < q;
    assert x[|x|..] == [];
  }

  lemma PlantedByGraft(t: Tree, x: Path, sub: Tree)
    requires ValidTree(t) && x != [] && WayClear(t, x) && (x in t ==> t[x].Link? && [] in sub)
    ensures Planted(t, Grafted(WithParents(t, x, |x|), x, sub), x, sub)
  {
    NothingBeneath(t, x);
    var g := Grafted(WithParents(t, x, |x|), x, sub);
    forall q | x <= q ensures (q in g <==> q[|x|..] in sub) && (q in g ==> g[q] == sub[q[|x|..]]) {
      PlantedPoint(t, x, sub, q);
    }
    forall q | q < x ensures q in g && g[q] == Dir { PlantedPoint(t, x, sub, q); }
    forall q | Apart(x, q) ensures (q in g <==> q in t) && (q in t ==> g[q] == t[q]) {
      PlantedPoint(t, x, sub, q);
    }
  }

  lemma SingleGraft(t: Tree, x: Path, n: Node)
    ensures Grafted(t, x, map[[] := n]) == t[x := n]
  {
    var g := Grafted(t, x, map[[] := n]);
    GraftedAt(t, x, map[[] := n]);
    assert x <= x && x[|x|..] == [];
    forall q ensures (q in g <==> q in t[x := n]) && (q in g ==> g[q] == t[x := n][q]) {
      if x <= q && q[|x|..] == [] { assert q == x; }
    }
  }

  lemma PlantNewRuns(w: World, t: Tree, e: Entry)
    requires ValidTree(t) && e.target !in t && WayClear(t, e.target)
    ensures var r := RunPlace(View(t, w), e, PlaceNew);
            r.done && Planted(t, Exec(t, r.events), e.target, map[[] := Link(LinkDest(e))])
  {
    var x := e.target;
    var parents, p := Parents(t, x, |x|), WithParents(t, x, |x|);
    ParentsRun(t, x, |x|);
    PlantedByGraft(t, x, map[[] := Link(LinkDest(e))]);
    SingleGraft(p, x, Link(LinkDest(e)));
    RoomAfterParents(t, x);
    LegalOne(p, LinkNew(x, LinkDest(e)));
    ExecConcat(t, parents, [LinkNew(x, LinkDest(e))]);
  }

  lemma NoMoreParents(t: Tree, x: Path)
    requires ValidTree(t) && x in t
    ensures Parents(t, x, |x|) == [] && WithParents(t, x, |x|) == t && WayClear(t, x)
  {
    ParentsAllThere(t, x);
    ParentsRun(t, x, |x|);
  }

  lemma RelinkWrites(t: Tree, x: Path, dest: Path)
    requires ValidTree(t) && x != [] && x in t && t[x].Link?
    ensures Exec(t, [Detach(x, t[x].dest), Relink(x, dest)]) == t[x := Link(dest)]
  {
    RemovalValid(t, x);
    LegalPair(t, Detach(x, t[x].dest), Relink(x, dest));
    assert Without(t, x)[x := Link(dest)] == t[x := Link(dest)];
  }

  lemma PlantAgainRuns(w: World, t: Tree, e: Entry, kind: PlaceKind)
    requires ValidTree(t) && e.target in t && t[e.target].Link? && kind != PlaceNew
    ensures var r := RunPlace(View(t, w), e, kind);
            r.done && Planted(t, Exec(t, r.events), e.target, map[[] := Link(LinkDest(e))])
  {
    var x := e.target;
    NoMoreParents(t, x);
    PlantedByGraft(t, x, map[[] := Link(LinkDest(e))]);
    SingleGraft(t, x, Link(LinkDest(e)));
    RelinkWrites(t, x, LinkDest(e));
    hide Planted, Exec, Grafted, WithParents;
    assert [] + [Detach(x, t[x].dest), Relink(x, LinkDest(e))] == [Detach(x, t[x].dest), Relink(x, LinkDest(e))];
  }

  lemma PlantCopyRuns(w: World, t: Tree, e: Entry)
    requires ValidTree(t) && ValidWorld(w) && e.target !in t && WayClear(t, e.target) && w.probe(LinkDest(e)).Found?
    ensures var r := RunCopy(View(t, w), e);
            r.done && Planted(t, Exec(t, r.events), e.target, w.content(LinkDest(e)))
  {
    var x, sub := e.target, w.content(LinkDest(e));
    var parents, p := Parents(t, x, |x|), WithParents(t, x, |x|);
    ParentsRun(t, x, |x|);
    PlantedByGraft(t, x, sub);
    RoomAfterParents(t, x);
    FitsRoom(p, x, sub);
    LegalPair(p, OpenCopy(x), Graft(x, sub, false));
    ExecConcat(t, parents, [OpenCopy(x), Graft(x, sub, false)]);
  }

  lemma PlantRuns(w: World, t: Tree, a: Action)
    requires ValidTree(t) && ValidWorld(w) && Plants(a) && PlantReady(w, t, a)
    ensures RunOne(View(t, w), a).done
    ensures Planted(t, Exec(t, RunOne(View(t, w), a).events), a.entry.target, Crop(w, a))
  {
    match a
    case DoPlace(e, kind) =>
      if kind == PlaceNew { PlantNewRuns(w, t, e); } else { PlantAgainRuns(w, t, e, kind); }
    case DoCopy(e) => PlantCopyRuns(w, t, e);
  }

  ghost predicate PlantsApart(actions: seq<Action>) {
    && (forall a :: a in actions ==> Plants(a))
    && forall i, j :: 0 <= i < j < |actions| ==>
         Plants(actions[i]) && Plants(actions[j]) && Apart(actions[i].entry.target, actions[j].entry.target)
  }

  predicate Touched(actions: seq<Action>, q: Path) {
    exists a :: a in actions && !a.PreRmDir? && (a.entry.target <= q || q < a.entry.target)
  }

  /** Every placement is at its target, every ancestor of a target is a directory, the rest is as before. */
  ghost predicate Grown(w: World, t: Tree, u: Tree, actions: seq<Action>) {
    && (forall a :: a in actions ==> Plants(a))
    && (forall a, q :: a in actions && a.entry.target <= q ==> (q in u <==> q[|a.entry.target|..] in Crop(w, a)))
    && (forall a, q :: a in actions && a.entry.target <= q && q in u ==> u[q] == Crop(w, a)[q[|a.entry.target|..]])
    && (forall a, q :: a in actions && q < a.entry.target ==> q in u && u[q] == Dir)
    && (forall q :: !Touched(actions, q) ==> (q in u <==> q in t))
    && (forall q :: !Touched(actions, q) && q in t ==> u[q] == t[q])
  }

  lemma GrownAbove(w: World, t: Tree, u: Tree, actions: seq<Action>, a: Action, q: Path)
    requires Grown(w, t, u, actions) && a in actions && Plants(a) && q < a.entry.target
    ensures q in u && u[q] == Dir
  {
  }

  lemma GrownAt(w: World, t: Tree, u: Tree, actions: seq<Action>, a: Action)
    requires Grown(w, t, u, actions) && a in actions && Plants(a) && [] in Crop(w, a)
    ensures a.entry.target in u && u[a.entry.target] == Crop(w, a)[[]]
  {
    assert a.entry.target <= a.entry.target && a.entry.target[|a.entry.target|..] == [];
  }

  lemma GrownBeneath(w: World, t: Tree, u: Tree, actions: seq<Action>, a: Action, y: Path)
    requires Grown(w, t, u, actions) && a in actions && a.DoCopy?
    ensures var sub := w.content(LinkDest(a.entry));
            (a.entry.target + y in u <==> y in sub) && (y in sub ==> u[a.entry.target + y] == sub[y])
  {
    var q := a.entry.target + y;
    assert a.entry.target <= q && q[|a.entry.target|..] == y;
  }

  lemma GrownElsewhere(w: World, t: Tree, u: Tree, actions: seq<Action>, q: Path)
    requires Grown(w, t, u, actions) && !Touched(actions, q)
    ensures q in u <==> q in t
    ensures q in t ==> u[q] == t[q]
  {
  }

  /** A placement elsewhere does not spoil what a later one relies on. */
  lemma StaysReady(w: World, t: Tree, u: Tree, init: seq<Action>, a: Action)
    requires ValidTree(t) && ValidTree(u) && Plants(a) && PlantReady(w, t, a) && Grown(w, t, u, init)
    requires forall b :: b in init ==> Apart(b.entry.target, a.entry.target)
    ensures PlantReady(w, u, a)
  {
    var x := a.entry.target;
    assert !Touched(init, x);
    assert x in u <==> x in t;
    if x !in t {
      forall k | 0 <= k < |x| && x[..k] in u ensures u[x[..k]] == Dir {
        var q := x[..k];
        if Touched(init, q) {
          var b :| b in init && !b.PreRmDir? && (b.entry.target <= q || q < b.entry.target);
          assert q < x;
        }
      }
    }
  }

  /** What a placement at `x` leaves alone of an earlier one at `y`. */
  lemma ApartPoint(x: Path, y: Path, q: Path)
    requires Apart(x, y)
    ensures y <= q ==> Apart(x, q)
    ensures q < y ==> q < x || Apart(x, q)
  {
    if y <= q {
      if x <= q { Comparable(x, y, q); }
    }
  }

  lemma PlantStepAt(w: World, t: Tree, u: Tree, v: Tree, init: seq<Action>, a: Action, b: Action, q: Path)
    requires Grown(w, t, u, init) && Plants(a) && Planted(u, v, a.entry.target, Crop(w, a))
    requires b in init && Plants(b) && Apart(a.entry.target, b.entry.target)
    ensures b.entry.target <= q ==>
              && (q in v <==> q[|b.entry.target|..] in Crop(w, b))
              && (q in v ==> v[q] == Crop(w, b)[q[|b.entry.target|..]])
    ensures q < b.entry.target ==> q in v && v[q] == Dir
  {
    ApartPoint(a.entry.target, b.entry.target, q);
  }

  lemma PlantStepElsewhere(w: World, t: Tree, u: Tree, v: Tree, init: seq<Action>, a: Action, q: Path)
    requires Grown(w, t, u, init) && Plants(a) && Planted(u, v, a.entry.target, Crop(w, a))
    requires !Touched(init + [a], q)
    ensures q in v <==> q in t
    ensures q in t ==> v[q] == t[q]
  {
    UntouchedBefore(init, a, q);
  }

  lemma PlantStep(w: World, t: Tree, u: Tree, v: Tree, init: seq<Action>, a: Action)
    requires Grown(w, t, u, init) && Plants(a)
    requires Planted(u, v, a.entry.target, Crop(w, a))
    requires forall b :: b in init ==> Plants(b) && Apart(a.entry.target, b.entry.target)
    ensures Grown(w, t, v, init + [a])
  {
    var actions := init + [a];
    assert forall b :: b in actions <==> b in init || b == a;
    forall b, q | b in actions && b.entry.target <= q
      ensures q in v <==> q[|b.entry.target|..] in Crop(w, b)
      ensures q in v ==> v[q] == Crop(w, b)[q[|b.entry.target|..]]
    {
      if b in init { PlantStepAt(w, t, u, v, init, a, b, q); }
    }
    forall b, q | b in actions && q < b.entry.target ensures q in v && v[q] == Dir {
      if b in init { PlantStepAt(w, t, u, v, init, a, b, q); }
    }
    forall q | !Touched(actions, q)
      ensures q in v <==> q in t
      ensures q in t ==> v[q] == t[q]
    {
      PlantStepElsewhere(w, t, u, v, init, a, q);
    }
  }

  lemma UntouchedBefore(init: seq<Action>, a: Action, q: Path)
    requires Plants(a) && !Touched(init + [a], q)
    ensures !Touched(init, q) && Apart(a.entry.target, q)
  {
    var actions := init + [a];
    assert a in actions;
    assert forall b :: b in init ==> b in actions;
  }

  lemma {:induction false} PlantsRun(w: World, t: Tree, actions: seq<Action>)
    requires ValidTree(t) && ValidWorld(w) && PlantsApart(actions)
    requires forall a :: a in actions ==> PlantReady(w, t, a)
    ensures RunAll(w, t, actions).done
    ensures ValidTree(End(w, t, actions)) && Grown(w, t, End(w, t, actions), actions)
    decreases |actions|
  {
    RunAllLegal(w, t, actions);
    if actions != [] {
      var init, a := actions[..|actions| - 1], actions[|actions| - 1];
      assert actions == init + [a];
      PlantsRun(w, t, init);
      var u := End(w, t, init);
      forall b | b in init ensures Plants(b) && Apart(a.entry.target, b.entry.target) {
        assert b in actions;
        var i :| 0 <= i < |init| && init[i] == b;
        assert actions[i] == b;
      }
      StaysReady(w, t, u, init, a);
      PlantRuns(w, u, a);
      RunAllSnoc(w, t, init, a);
      var before, last := RunAll(w, t, init).events, RunOne(View(u, w), a).events;
      ExecConcat(t, before, last);
      PlantStep(w, t, u, End(w, t, actions), init, a);
    }
  }

  // Stale removal.

  function DropActions(rs: seq<RemoveAction>, limits: seq<nat>): seq<Action>
    requires |limits| == |rs| && forall r :: r in rs ==> r.Unlink?
  {
    if rs == [] then []
    else DropActions(rs[..|rs| - 1], limits[..|rs| - 1]) + [DoDrop(rs[|rs| - 1].entry, limits[|rs| - 1])]
  }

  /** Every removal may prune as far up as it finds directories empty. */
  ghost predicate Unlimited(rs: seq<RemoveAction>, limits: seq<nat>) {
    |limits| == |rs| && forall i :: 0 <= i < |rs| ==> rs[i].Unlink? && limits[i] >= |rs[i].entry.target|
  }

  /** The entry's link is on the disk as recorded. */
  predicate Live(t: Tree, e: Entry) {
    e.target in t && t[e.target] == Link(LinkDest(e))
  }

  /** What lstat sees through a symlink on the way to the target is not the link that the entry recorded. */
  predicate Foreign(v: View, e: Entry) {
    StillRecorded(v, e) ==> e.target in v.tree
  }

  /** The tree pruneEmptyAncestors leaves. */
  function Trim(t: Tree, dir: Path, limit: nat): Tree
    decreases |dir|
  {
    if limit == 0 || dir == [] || dir !in t || t[dir] != Dir || !Vacant(t, dir) then t
    else Trim(Without(t, dir), Parent(dir), limit - 1)
  }

  lemma {:induction false} PrunesEnd(t: Tree, dir: Path, limit: nat)
    requires ValidTree(t)
    ensures Exec(t, Prunes(t, dir, limit)) == Trim(t, dir, limit)
    decreases |dir|
  {
    var es := Prunes(t, dir, limit);
    if es != [] {
      var rest := Prunes(Without(t, dir), Parent(dir), limit - 1);
      RemovalValid(t, dir);
      LegalOne(t, RmDir(dir));
      ExecConcat(t, [RmDir(dir)], rest);
      PrunesEnd(Without(t, dir), Parent(dir), limit - 1);
    }
  }

  /** Only directories on the way to `dir`, or `dir` itself, went. */
  ghost predicate Trimmed(t: Tree, u: Tree, dir: Path) {
    && (forall q :: q in u ==> q in t && u[q] == t[q])
    && (forall q :: q in t && q !in u ==> t[q] == Dir && q <= dir)
  }

  lemma TrimmedOnce(t: Tree, u: Tree, dir: Path)
    requires dir != [] && dir in t && t[dir] == Dir && Trimmed(Without(t, dir), u, Parent(dir))
    ensures Trimmed(t, u, dir)
  {
    forall q | q in t && q !in u ensures t[q] == Dir && q <= dir {
      if q != dir { assert q in Without(t, dir); }
    }
  }

  lemma {:induction false} TrimTrims(t: Tree, dir: Path, limit: nat)
    requires ValidTree(t)
    ensures ValidTree(Trim(t, dir, limit)) && Trimmed(t, Trim(t, dir, limit), dir)
    decreases |dir|
  {
    if limit > 0 && dir != [] && dir in t && t[dir] == Dir && Vacant(t, dir) {
      RemovalValid(t, dir);
      TrimTrims(Without(t, dir), Parent(dir), limit - 1);
      TrimmedOnce(t, Trim(t, dir, limit), dir);
    }
  }

  /** Nothing but live links and, above them, directories went. */
  ghost predicate Shrunk(t: Tree, u: Tree, rs: seq<RemoveAction>) {
    && (forall q :: q in u ==> q in t && u[q] == t[q])
    && (forall r :: r in rs ==> r.Unlink? && !Live(u, r.entry))
    && (forall q :: q in t && q !in u && t[q] != Dir ==>
          exists r :: r in rs && r.Unlink? && r.entry.target == q && Live(t, r.entry))
    && (forall q :: q in t && q !in u && t[q] == Dir ==>
          exists r :: r in rs && r.Unlink? && q < r.entry.target && Live(t, r.entry))
  }

  lemma RecordedMeansLive(v: View, e: Entry)
    requires Foreign(v, e)
    ensures StillRecorded(v, e) <==> Live(v.tree, e)
  {
  }

  /** Removals hide nothing that was in the way of lstat. */
  lemma ForeignShrinks(w: World, t: Tree, u: Tree, e: Entry)
    requires ValidTree(t) && ValidTree(u) && Foreign(View(t, w), e)
    requires forall q :: q in u ==> q in t && u[q] == t[q]
    ensures Foreign(View(u, w), e)
  {
    var q := Nearest(u, e.target);
    if StillRecorded(View(u, w), e) && e.target !in u {
      assert q in u && u[q].Link? && q < e.target;
      NothingBeneath(t, q);
      forall r | r in t && r <= e.target ensures r <= q { Comparable(r, q, e.target); }
      NearestIs(t, e.target, q);
    }
  }

  lemma ShrunkIsPart(t: Tree, u: Tree, rs: seq<RemoveAction>)
    requires Shrunk(t, u, rs)
    ensures forall q :: q in u ==> q in t && u[q] == t[q]
  {
  }

  lemma DropStep(w: World, t: Tree, u: Tree, init: seq<RemoveAction>, r: RemoveAction, limit: nat)
    requires ValidTree(t) && ValidTree(u) && Shrunk(t, u, init) && r.Unlink? && Foreign(View(t, w), r.entry)
    ensures RunOne(View(u, w), DoDrop(r.entry, limit)).done
    ensures ValidTree(Exec(u, RunOne(View(u, w), DoDrop(r.entry, limit)).events))
    ensures Shrunk(t, Exec(u, RunOne(View(u, w), DoDrop(r.entry, limit)).events), init + [r])
  {
    hide Exec, Shrunk, Foreign, Live, ValidTree, RunDrop;
    ShrunkIsPart(t, u, init);
    ForeignShrinks(w, t, u, r.entry);
    DropIsDone(View(u, w), r.entry, limit);
    if Live(u, r.entry) {
      DropLive(w, u, r.entry, limit);
      ShrinksOnce(t, u, Exec(u, RunDrop(View(u, w), r.entry, limit).events), init, r);
    } else {
      ShrinksNot(t, u, init, r);
      NothingWritten(u);
    }
  }

  lemma NothingWritten(u: Tree)
    ensures Exec(u, []) == u
  {
  }

  lemma DropIsDone(v: View, e: Entry, limit: nat)
    requires Foreign(v, e)
    ensures RunDrop(v, e, limit).done
    ensures !Live(v.tree, e) ==> RunDrop(v, e, limit).events == []
  {
    RecordedMeansLive(v, e);
  }

  lemma ShrinksNot(t: Tree, u: Tree, init: seq<RemoveAction>, r: RemoveAction)
    requires Shrunk(t, u, init) && r.Unlink? && !Live(u, r.entry)
    ensures Shrunk(t, u, init + [r])
  {
    assert forall x :: x in init ==> x in init + [r];
  }

  lemma ShrinksAt(t: Tree, u: Tree, v: Tree, init: seq<RemoveAction>, r: RemoveAction, q: Path)
    requires Shrunk(t, u, init) && r.Unlink? && Live(u, r.entry) && q in t && q !in v
    requires q in u && q !in v && q != r.entry.target ==> u[q] == Dir && q < r.entry.target
    ensures t[q] != Dir ==> exists x :: x in init + [r] && x.Unlink? && x.entry.target == q && Live(t, x.entry)
    ensures t[q] == Dir ==> exists x :: x in init + [r] && x.Unlink? && q < x.entry.target && Live(t, x.entry)
  {
    var rs := init + [r];
    assert r in rs && forall x :: x in init ==> x in rs;
    assert Live(t, r.entry);
    if q !in u {
      if t[q] != Dir {
        var x :| x in init && x.entry.target == q && Live(t, x.entry);
        assert x in rs;
      } else {
        var x :| x in init && q < x.entry.target && Live(t, x.entry);
        assert x in rs;
      }
    }
  }

  lemma StaysDead(u: Tree, v: Tree, e: Entry)
    requires (forall q :: q in v ==> q in u && v[q] == u[q]) && (!Live(u, e) || e.target !in v)
    ensures !Live(v, e)
  {
  }

  lemma ShrinksOnce(t: Tree, u: Tree, v: Tree, init: seq<RemoveAction>, r: RemoveAction)
    requires Shrunk(t, u, init) && r.Unlink? && Live(u, r.entry) && r.entry.target !in v
    requires forall q :: q in v ==> q in u && v[q] == u[q]
    requires forall q :: q in u && q !in v && q != r.entry.target ==> u[q] == Dir && q < r.entry.target
    ensures Shrunk(t, v, init + [r])
  {
    hide Live;
    forall x | x in init + [r] ensures x.Unlink? && !Live(v, x.entry) { StaysDead(u, v, x.entry); }
    forall q | q in t && q !in v
      ensures t[q] != Dir ==> exists x :: x in init + [r] && x.Unlink? && x.entry.target == q && Live(t, x.entry)
      ensures t[q] == Dir ==> exists x :: x in init + [r] && x.Unlink? && q < x.entry.target && Live(t, x.entry)
    {
      ShrinksAt(t, u, v, init, r, q);
    }
  }

  lemma DropLive(w: World, u: Tree, e: Entry, limit: nat)
    requires ValidTree(u) && Live(u, e)
    ensures var v := Exec(u, RunOne(View(u, w), DoDrop(e, limit)).events);
            && ValidTree(v)
            && e.target !in v
            && (forall q :: q in v ==> q in u && v[q] == u[q])
            && (forall q :: q in u && q !in v && q != e.target ==> u[q] == Dir && q < e.target)
  {
    var p := e.target;
    var u1, drop := Without(u, p), Drop(p, LinkDest(e));
    LegalOne(u, drop);
    RemovalValid(u, p);
    PrunesEnd(u1, Parent(p), limit);
    TrimTrims(u1, Parent(p), limit);
    ExecConcat(u, [drop], Prunes(u1, Parent(p), limit));
  }

  lemma {:induction false} DropsRun(w: World, t: Tree, rs: seq<RemoveAction>, limits: seq<nat>)
    requires ValidTree(t) && ValidWorld(w) && |limits| == |rs|
    requires forall r :: r in rs ==> r.Unlink? && Foreign(View(t, w), r.entry)
    ensures RunAll(w, t, DropActions(rs, limits)).done
    ensures ValidTree(End(w, t, DropActions(rs, limits))) && Shrunk(t, End(w, t, DropActions(rs, limits)), rs)
    decreases |rs|
  {
    if rs != [] {
      var init, r := rs[..|rs| - 1], rs[|rs| - 1];
      assert rs == init + [r];
      DropsRun(w, t, init, limits[..|rs| - 1]);
      var before := DropActions(init, limits[..|rs| - 1]);
      var u := End(w, t, before);
      DropStep(w, t, u, init, r, limits[|rs| - 1]);
      var a := DoDrop(r.entry, limits[|rs| - 1]);
      RunAllSnoc(w, t, before, a);
      ExecConcat(t, RunAll(w, t, before).events, RunOne(View(u, w), a).events);
    }
  }
}
