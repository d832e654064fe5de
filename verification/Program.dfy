/** The engine's stages as one list of actions, and the writes each action comes to on a given tree. */
module Program {
  import opened Sequences
  import opened Paths
  import opened Trees
  import opened Manifests
  import opened Planner
  import opened Steps
  import opened Undo

  const RECOPY_SUFFIX: Name := "layat-recopy-aside"

  /** One pass of a stage loop. `limit` is how many ancestor directories the system lets the pruning
      after a stale removal take away: a failed prune is a warning, not a failure. */
  datatype Action =
    | PreDrop(entry: Entry)
    | PreRmDir(dir: Path)
    | DoBackup(entry: Entry, aside: Path)
    | DoPlace(entry: Entry, kind: PlaceKind)
    | DoCopy(entry: Entry)
    | DoRecopy(entry: Entry)
    | DoDrop(entry: Entry, limit: nat)
  {
    /** The root-relative target a failure of the action is reported under, `[]` for none. */
    function Target(): Path {
      if PreRmDir? then [] else entry.target
    }

    predicate Claims() { DoBackup? || DoPlace? || DoCopy? || DoRecopy? }

    predicate MakesParents() { DoPlace? || DoCopy? || DoRecopy? }

    predicate RenamesAside() { DoBackup? || DoRecopy? }

    function AsidePath(): Path
      requires RenamesAside()
    {
      if DoBackup? then aside else WithSuffix(entry.target, RECOPY_SUFFIX)
    }
  }

  /** The writes an action makes; `done` unless something in the tree stops it after them. */
  datatype Outcome = Outcome(events: seq<Event>, done: bool)

  /** Every existing node on the way to `p` is a directory. */
  predicate WayClear(t: Tree, p: Path) {
    forall k :: 0 <= k < |p| && p[..k] in t ==> t[p[..k]] == Dir
  }

  /** MkdirAll of the ancestors of `p` shorter than `n`, outermost first. */
  function Parents(t: Tree, p: Path, n: nat): seq<Event>
    requires n <= |p|
  {
    if n == 0 then []
    else Parents(t, p, n - 1) + (if p[..n - 1] in t then [] else [MkParent(p[..n - 1])])
  }

  /** reverifyStale: still a symlink, still pointing where the entry recorded. */
  predicate StillRecorded(v: View, e: Entry)
  {
    Lstat(v, e.target) == Found(Link(LinkDest(e)))
  }

  /** pruneEmptyAncestors from `dir` upwards, innermost first. */
  function Prunes(t: Tree, dir: Path, limit: nat): seq<Event>
    decreases |dir|
  {
    if limit == 0 || dir == [] || dir !in t || t[dir] != Dir || !Vacant(t, dir) then []
    else [RmDir(dir)] + Prunes(Without(t, dir), Parent(dir), limit - 1)
  }

  function RunPreDrop(v: View, e: Entry): Outcome
  {
    if StillRecorded(v, e) && e.target in v.tree then Outcome([Drop(e.target, LinkDest(e))], true)
    else Outcome([], false)
  }

  /** An absent directory meets the goal; a directory that gained content does not. */
  function RunPreRmDir(v: View, dir: Path): Outcome
  {
    if dir == [] then Outcome([], false)
    else if dir in v.tree then
      if Vacant(v.tree, dir) then Outcome([RmDir(dir)], true) else Outcome([], false)
    else Outcome([], Lstat(v, dir).NotExist?)
  }

  function RunBackup(v: View, e: Entry, aside: Path): Outcome
  {
    if Lstat(v, aside).NotExist? && aside !in v.tree && e.target in v.tree
       && aside != [] && aside != e.target && Parent(aside) == Parent(e.target) then
      Outcome([BackUp(e.target, aside)], true)
    else
      Outcome([], false)
  }

  function RunPlace(v: View, e: Entry, kind: PlaceKind): Outcome
  {
    var p, dest := e.target, LinkDest(e);
    if !WayClear(v.tree, p) then Outcome([], false)
    else
      var parents := Parents(v.tree, p, |p|);
      if kind == PlaceNew then
        if p in v.tree then Outcome(parents, false) else Outcome(parents + [LinkNew(p, dest)], true)
      else if p in v.tree && v.tree[p].Link? then
        Outcome(parents + [Detach(p, v.tree[p].dest), Relink(p, dest)], true)
      else
        Outcome(parents, false)
  }

  /** The copy does not look whether something is there; where it is, it is written over. */
  function RunCopy(v: View, e: Entry): Outcome
  {
    var p, src := e.target, LinkDest(e);
    if !WayClear(v.tree, p) then Outcome([], false)
    else
      var parents := Parents(v.tree, p, |p|);
      if !v.world.probe(src).Found? then Outcome(parents + [OpenCopy(p)], false)
      else if p in v.tree && !Fits(v.tree, p, v.world.content(src)) then Outcome(parents + [OpenCopy(p)], false)
      else Outcome(parents + [OpenCopy(p), Graft(p, v.world.content(src), false)], true)
  }

  /** The rename does not look whether an aside is there; a file or link gives way to a file or link. */
  function RunRecopy(v: View, e: Entry): Outcome
  {
    var p, src := e.target, LinkDest(e);
    if p in v.tree then
      var aside := WithSuffix(p, RECOPY_SUFFIX);
      if !CanRename(v.tree, p, aside) then Outcome([], false)
      else if !v.world.probe(src).Found? then Outcome([SetAside(p, aside)], false)
      else Outcome([SetAside(p, aside), Graft(p, v.world.content(src), true)], true)
    else if !Lstat(v, p).NotExist? then Outcome([], false)
    else if !WayClear(v.tree, p) then Outcome([OpenCopy(p)], false)
    else
      var parents := Parents(v.tree, p, |p|);
      if !v.world.probe(src).Found? then Outcome([OpenCopy(p)] + parents, false)
      else Outcome([OpenCopy(p)] + parents + [Graft(p, v.world.content(src), false)], true)
  }

  /** A link that drifted is kept. */
  function RunDrop(v: View, e: Entry, limit: nat): Outcome
  {
    if !StillRecorded(v, e) then Outcome([], true)
    else if e.target !in v.tree then Outcome([], false)
    else
      Outcome([Drop(e.target, LinkDest(e))] + Prunes(Without(v.tree, e.target), Parent(e.target), limit), true)
  }

  function RunOne(v: View, a: Action): Outcome
  {
    match a
    case PreDrop(e) => RunPreDrop(v, e)
    case PreRmDir(dir) => RunPreRmDir(v, dir)
    case DoBackup(e, aside) => RunBackup(v, e, aside)
    case DoPlace(e, kind) => RunPlace(v, e, kind)
    case DoCopy(e) => RunCopy(v, e)
    case DoRecopy(e) => RunRecopy(v, e)
    case DoDrop(e, limit) => RunDrop(v, e, limit)
  }

  lemma LegalSnoc(t: Tree, init: seq<Event>, e: Event)
    requires Legal(t, init) && Enabled(Exec(t, init), e) && Covered(Journal(init), e)
    ensures Legal(t, init + [e]) && Exec(t, init + [e]) == Apply(Exec(t, init), e)
    ensures Journal(init + [e]) == Journal(init) + JournalOf(e)
    ensures Lossless(t, init + [e]) <==> Lossless(t, init) && Spares(Exec(t, init), e)
  {
    assert (init + [e])[..|init + [e]| - 1] == init;
  }

  lemma LegalUnfold(t: Tree, es: seq<Event>)
    requires es != [] && Legal(t, es)
    ensures var init, e := es[..|es| - 1], es[|es| - 1];
            Legal(t, init) && Enabled(Exec(t, init), e) && Covered(Journal(init), e)
  {
  }

  lemma CoveredLater(before: seq<UndoOp>, journal: seq<UndoOp>, e: Event)
    requires Covered(journal, e)
    ensures Covered(before + journal, e)
  {
    if journal != [] {
      assert (before + journal)[|before + journal| - 1] == journal[|journal| - 1];
    }
  }

  lemma LegalConcatStep(t: Tree, a: seq<Event>, init: seq<Event>, e: Event)
    requires Legal(t, a + init) && Enabled(Exec(Exec(t, a), init), e) && Covered(Journal(init), e)
    ensures Legal(t, a + (init + [e]))
  {
    hide Legal, Enabled, Covered, Exec, Journal;
    ExecConcat(t, a, init);
    JournalConcat(a, init);
    CoveredLater(Journal(a), Journal(init), e);
    LegalSnoc(t, a + init, e);
    assert a + (init + [e]) == (a + init) + [e];
  }

  lemma {:induction false} LegalConcat(t: Tree, a: seq<Event>, b: seq<Event>)
    requires Legal(t, a) && Legal(Exec(t, a), b)
    ensures Legal(t, a + b)
    decreases |b|
  {
    if b == [] {
      EmptyEnd(a, b);
    } else {
      var init, e := b[..|b| - 1], b[|b| - 1];
      LastOf(b);
      LegalUnfold(Exec(t, a), b);
      LegalConcat(t, a, init);
      LegalConcatStep(t, a, init, e);
    }
  }

  lemma {:induction false} LosslessConcat(t: Tree, a: seq<Event>, b: seq<Event>)
    ensures Lossless(t, a + b) <==> Lossless(t, a) && Lossless(Exec(t, a), b)
    decreases |b|
  {
    if b == [] {
      assert a + b == a;
    } else {
      var init := b[..|b| - 1];
      assert (a + b)[..|a + b| - 1] == a + init;
      LosslessConcat(t, a, init);
      ExecConcat(t, a, init);
    }
  }

  lemma LegalOne(t: Tree, e: Event)
    requires Enabled(t, e) && Covered([], e)
    ensures Legal(t, [e]) && Exec(t, [e]) == Apply(t, e)
    ensures Journal([e]) == JournalOf(e)
    ensures Lossless(t, [e]) <==> Spares(t, e)
  {
    LegalSnoc(t, [], e);
    assert [] + [e] == [e];
  }

  lemma LegalPair(t: Tree, e: Event, f: Event)
    requires Enabled(t, e) && Covered([], e)
    requires Enabled(Apply(t, e), f) && Covered(JournalOf(e), f)
    ensures Legal(t, [e, f]) && Exec(t, [e, f]) == Apply(Apply(t, e), f)
    ensures Journal([e, f]) == JournalOf(e) + JournalOf(f)
    ensures Lossless(t, [e, f]) <==> Spares(t, e) && Spares(Apply(t, e), f)
  {
    LegalOne(t, e);
    LegalSnoc(t, [e], f);
    assert [e] + [f] == [e, f];
  }

  /** The tree with the ancestors of `p` shorter than `n` made. */
  function WithParents(t: Tree, p: Path, n: nat): Tree
    requires n <= |p|
  {
    t + map q | q in (set k | 0 <= k < n :: p[..k]) && q !in t :: Dir
  }

  lemma WithOneMoreParent(t: Tree, p: Path, n: nat)
    requires 0 < n <= |p|
    ensures WithParents(t, p, n) ==
            if p[..n - 1] in t then WithParents(t, p, n - 1) else WithParents(t, p, n - 1)[p[..n - 1] := Dir]
  {
    var fewer, more := set k | 0 <= k < n - 1 :: p[..k], set k | 0 <= k < n :: p[..k];
    assert more == fewer + {p[..n - 1]};
  }

  lemma {:induction false} ParentsUnjournaled(t: Tree, p: Path, n: nat)
    requires n <= |p|
    ensures Journal(Parents(t, p, n)) == []
  {
    if n > 0 {
      ParentsUnjournaled(t, p, n - 1);
      if p[..n - 1] !in t {
        JournalSnoc(Parents(t, p, n - 1), MkParent(p[..n - 1]));
      } else {
        assert Parents(t, p, n) == Parents(t, p, n - 1);
      }
    }
  }

  lemma {:induction false} ParentsMade(t: Tree, p: Path, n: nat)
    requires n <= |p|
    ensures forall e :: e in Parents(t, p, n) ==> e.MkParent? && e.path < p && e.path !in t
    ensures forall k :: 0 <= k < n && p[..k] !in t ==> MkParent(p[..k]) in Parents(t, p, n)
  {
    if n > 0 {
      ParentsMade(t, p, n - 1);
      forall k | 0 <= k < n && p[..k] !in t ensures MkParent(p[..k]) in Parents(t, p, n) {
        if k < n - 1 { assert MkParent(p[..k]) in Parents(t, p, n - 1); }
      }
    }
  }

  lemma OneMoreParent(t: Tree, p: Path, n: nat)
    requires ValidTree(t) && 0 < n <= |p| && p[..n - 1] !in t && WayClear(t, p)
    ensures Enabled(WithParents(t, p, n - 1), MkParent(p[..n - 1]))
  {
    var q, u := p[..n - 1], WithParents(t, p, n - 1);
    assert q != [];
    assert Parent(q) == p[..n - 2];
    assert Parent(q) in u && u[Parent(q)] == Dir;
    forall k | 0 <= k < n - 1 ensures p[..k] != q { assert |p[..k]| == k; }
    assert q !in u;
  }

  lemma {:induction false} ParentsRun(t: Tree, p: Path, n: nat)
    requires ValidTree(t) && n <= |p| && WayClear(t, p)
    ensures Legal(t, Parents(t, p, n)) && Lossless(t, Parents(t, p, n))
    ensures Exec(t, Parents(t, p, n)) == WithParents(t, p, n)
    ensures ValidTree(WithParents(t, p, n))
  {
    if n == 0 {
      assert WithParents(t, p, 0) == t;
    } else {
      ParentsRun(t, p, n - 1);
      WithOneMoreParent(t, p, n);
      var q := p[..n - 1];
      if q !in t {
        OneMoreParent(t, p, n);
        ApplyValid(WithParents(t, p, n - 1), MkParent(q));
        LegalSnoc(t, Parents(t, p, n - 1), MkParent(q));
        assert Parents(t, p, n) == Parents(t, p, n - 1) + [MkParent(q)];
      } else {
        assert Parents(t, p, n) == Parents(t, p, n - 1);
      }
    }
  }

  lemma ParentsAllThere(t: Tree, p: Path)
    requires ValidTree(t) && p in t
    ensures WayClear(t, p) && Parents(t, p, |p|) == []
  {
    forall k | 0 <= k < |p| ensures p[..k] in t && t[p[..k]] == Dir { AncestorsAreDirs(t, p, p[..k]); }
    NoParents(t, p, |p|);
  }

  lemma {:induction false} NoParents(t: Tree, p: Path, n: nat)
    requires n <= |p| && forall k :: 0 <= k < n ==> p[..k] in t
    ensures Parents(t, p, n) == []
  {
    if n > 0 { NoParents(t, p, n - 1); }
  }

  lemma {:induction false} PrunesLegal(t: Tree, dir: Path, limit: nat)
    requires ValidTree(t)
    ensures Legal(t, Prunes(t, dir, limit)) && Lossless(t, Prunes(t, dir, limit))
    decreases |dir|
  {
    var es := Prunes(t, dir, limit);
    if es != [] {
      var t1 := Without(t, dir);
      var rest := Prunes(t1, Parent(dir), limit - 1);
      RemovalValid(t, dir);
      PrunesLegal(t1, Parent(dir), limit - 1);
      LegalOne(t, RmDir(dir));
      LegalConcat(t, [RmDir(dir)], rest);
      LosslessConcat(t, [RmDir(dir)], rest);
    }
  }

  lemma RoomAfterParents(t: Tree, p: Path)
    requires ValidTree(t) && p != [] && p !in t && WayClear(t, p)
    ensures Room(WithParents(t, p, |p|), p)
    ensures forall q :: q !in t && q in WithParents(t, p, |p|) ==> q < p && WithParents(t, p, |p|)[q] == Dir
  {
    var u := WithParents(t, p, |p|);
    assert Parent(p) == p[..|p| - 1];
    assert Parent(p) in u && u[Parent(p)] == Dir;
  }

  /** The action meets nothing it would destroy: a planned empty directory is no other thing, a copy's
      target is absent, and no leftover aside is about to be overwritten. */
  predicate Undrifted(t: Tree, a: Action) {
    match a
    case PreRmDir(dir) => dir in t ==> t[dir] == Dir
    case DoCopy(e) => e.target !in t
    case DoRecopy(e) => !Overwrites(t, e)
    case _ => true
  }

  /** Setting the copy aside replaces what stands at the aside. */
  predicate Overwrites(t: Tree, e: Entry) {
    var aside := WithSuffix(e.target, RECOPY_SUFFIX);
    e.target in t && t[e.target] != Dir && aside in t && t[aside] != Dir
  }

  lemma RunOneLegal(v: View, a: Action)
    requires ValidTree(v.tree) && ValidWorld(v.world)
    ensures Legal(v.tree, RunOne(v, a).events)
    ensures Undrifted(v.tree, a) ==> Lossless(v.tree, RunOne(v, a).events)
  {
    var t := v.tree;
    var es := RunOne(v, a).events;
    match a
    case PreDrop(e) => if es != [] { LegalOne(t, es[0]); }
    case PreRmDir(dir) => if es != [] { LegalOne(t, es[0]); }
    case DoBackup(e, aside) => if es != [] { LegalOne(t, es[0]); }
    case DoPlace(e, kind) => RunPlaceLegal(v, e, kind);
    case DoCopy(e) => RunCopyLegal(v, e);
    case DoRecopy(e) => RunRecopyLegal(v, e);
    case DoDrop(e, limit) =>
      if es != [] {
        var drop := Drop(e.target, LinkDest(e));
        LegalOne(t, drop);
        ApplyValid(t, drop);
        PrunesLegal(Without(t, e.target), Parent(e.target), limit);
        LegalConcat(t, [drop], es[1..]);
        LosslessConcat(t, [drop], es[1..]);
        assert es == [drop] + es[1..];
      }
  }

  lemma RunPlaceLegal(v: View, e: Entry, kind: PlaceKind)
    requires ValidTree(v.tree)
    ensures Legal(v.tree, RunPlace(v, e, kind).events) && Lossless(v.tree, RunPlace(v, e, kind).events)
  {
    var t, p, dest := v.tree, e.target, LinkDest(e);
    if WayClear(t, p) {
      var parents := Parents(t, p, |p|);
      var u := WithParents(t, p, |p|);
      ParentsRun(t, p, |p|);
      if kind == PlaceNew && p !in t {
        RoomAfterParents(t, p);
        LegalOne(u, LinkNew(p, dest));
        LegalConcat(t, parents, [LinkNew(p, dest)]);
        LosslessConcat(t, parents, [LinkNew(p, dest)]);
      } else if kind != PlaceNew && p in t && t[p].Link? {
        ParentsAllThere(t, p);
        LegalPair(t, Detach(p, t[p].dest), Relink(p, dest));
        assert parents + [Detach(p, t[p].dest), Relink(p, dest)] == [Detach(p, t[p].dest), Relink(p, dest)];
      }
    }
  }

  /** What follows the making of parents. */
  lemma AfterParents(t: Tree, p: Path, tail: seq<Event>)
    requires ValidTree(t) && WayClear(t, p) && Legal(WithParents(t, p, |p|), tail)
    ensures Legal(t, Parents(t, p, |p|) + tail)
    ensures Lossless(WithParents(t, p, |p|), tail) ==> Lossless(t, Parents(t, p, |p|) + tail)
  {
    hide Legal, Lossless, WayClear, Parents, WithParents;
    ParentsRun(t, p, |p|);
    LegalConcat(t, Parents(t, p, |p|), tail);
    LosslessConcat(t, Parents(t, p, |p|), tail);
  }

  lemma RunCopyLegal(v: View, e: Entry)
    requires ValidTree(v.tree) && ValidWorld(v.world)
    ensures Legal(v.tree, RunCopy(v, e).events)
    ensures e.target !in v.tree ==> Lossless(v.tree, RunCopy(v, e).events)
  {
    assert Legal(v.tree, []) && Lossless(v.tree, []);
    hide Legal, Lossless, Fits, Parents, WithParents;
    var t, p, sub := v.tree, e.target, v.world.content(LinkDest(e));
    if WayClear(t, p) {
      var u := WithParents(t, p, |p|);
      TargetAfterParents(t, p);
      LegalOne(u, OpenCopy(p));
      AfterParents(t, p, [OpenCopy(p)]);
      if RunCopy(v, e).done {
        CopyFits(t, p, sub);
        LegalPair(u, OpenCopy(p), Graft(p, sub, false));
        AfterParents(t, p, [OpenCopy(p), Graft(p, sub, false)]);
      }
    }
  }

  /** Making the parents of a target leaves the target as it is. */
  lemma TargetAfterParents(t: Tree, p: Path)
    ensures p in WithParents(t, p, |p|) <==> p in t
    ensures ValidTree(t) && p in t ==> WithParents(t, p, |p|) == t
  {
    if ValidTree(t) && p in t {
      forall k | 0 <= k < |p| ensures p[..k] in t { AncestorsAreDirs(t, p, p[..k]); }
    }
  }

  lemma CopyFits(t: Tree, p: Path, sub: Tree)
    requires ValidTree(t) && p != [] && WayClear(t, p) && (p in t ==> Fits(t, p, sub))
    ensures Fits(WithParents(t, p, |p|), p, sub)
  {
    TargetAfterParents(t, p);
    if p !in t {
      ParentsRun(t, p, |p|);
      RoomAfterParents(t, p);
      FitsRoom(WithParents(t, p, |p|), p, sub);
    }
  }

  lemma RunRecopyLegal(v: View, e: Entry)
    requires ValidTree(v.tree) && ValidWorld(v.world)
    ensures Legal(v.tree, RunRecopy(v, e).events)
    ensures !Overwrites(v.tree, e) ==> Lossless(v.tree, RunRecopy(v, e).events)
  {
    var t, p, src := v.tree, e.target, LinkDest(e);
    if p in t {
      var aside := WithSuffix(p, RECOPY_SUFFIX);
      if CanRename(t, p, aside) {
        LegalOne(t, SetAside(p, aside));
        if v.world.probe(src).Found? {
          ApplyValid(t, SetAside(p, aside));
          RoomOnceAside(t, p, aside);
          FitsRoom(Moved(t, p, aside), p, v.world.content(src));
          LegalPair(t, SetAside(p, aside), Graft(p, v.world.content(src), true));
        }
      }
    } else if Lstat(v, p).NotExist? {
      LegalOne(t, OpenCopy(p));
      if WayClear(t, p) {
        var parents := Parents(t, p, |p|);
        ParentsRun(t, p, |p|);
        LegalConcat(t, [OpenCopy(p)], parents);
        LosslessConcat(t, [OpenCopy(p)], parents);
        if v.world.probe(src).Found? {
          RecopyCovered(t, p, v.world.content(src), parents);
        }
      }
    }
  }

  lemma RoomOnceAside(t: Tree, p: Path, aside: Path)
    requires ValidTree(t) && Enabled(t, SetAside(p, aside))
    ensures Room(Moved(t, p, aside), p)
  {
    MovedElsewhere(t, p, aside);
    assert !(p <= Parent(p)) && !(aside <= Parent(p));
    if aside in t { RenamedOnto(t, p, aside); } else { MovedValid(t, p, aside); MovedAt(t, p, aside); }
  }

  lemma RecopyCovered(t: Tree, p: Path, sub: Tree, parents: seq<Event>)
    requires ValidTree(t) && p != [] && p !in t && WayClear(t, p) && ValidSub(sub)
    requires parents == Parents(t, p, |p|)
    requires Legal(t, [OpenCopy(p)] + parents) && Lossless(t, [OpenCopy(p)] + parents)
    ensures Legal(t, [OpenCopy(p)] + parents + [Graft(p, sub, false)])
    ensures Lossless(t, [OpenCopy(p)] + parents + [Graft(p, sub, false)])
  {
    ParentsRun(t, p, |p|);
    ParentsUnjournaled(t, p, |p|);
    RoomAfterParents(t, p);
    LegalOne(t, OpenCopy(p));
    ExecConcat(t, [OpenCopy(p)], parents);
    JournalConcat([OpenCopy(p)], parents);
    assert Journal([OpenCopy(p)] + parents) == [UndoRemoveCopy(p)];
    FitsRoom(WithParents(t, p, |p|), p, sub);
    LegalSnoc(t, [OpenCopy(p)] + parents, Graft(p, sub, false));
  }
}
