/** reset: taking down what the recorded generation placed. */
module Reset {
  import opened Sequences
  import opened Paths
  import opened Trees
  import opened Manifests
  import opened Planner
  import opened Steps
  import opened Undo
  import opened Program
  import opened Runs
  import opened PlanFacts
  import opened Stages
  import opened Atomic
  import opened Turns
  import opened Converge
  import opened Safety
  import opened Emptied
  import opened Reports
  import opened Failures
  import opened Progress
  import opened Disks
  import opened Engine
  import Sessions

  /** The entries to take down: all, or those named. A name no entry has is an error. */
  method SelectEntries(entries: Manifest, targets: seq<Path>) returns (ok: bool, chosen: Manifest)
    ensures targets == [] ==> ok && chosen == entries
    ensures targets != [] ==> (ok <==> forall t :: t in targets ==> t in ByTarget(entries))
    ensures ok && targets != [] ==> |chosen| == |targets| && forall i :: 0 <= i < |targets| ==>
              targets[i] in ByTarget(entries) && chosen[i] == ByTarget(entries)[targets[i]]
    ensures ok ==> forall e :: e in chosen ==> e in entries
  {
    if targets == [] { return true, entries; }
    var byTarget := ByTarget(entries);
    chosen := [];
    for i := 0 to |targets|
      invariant |chosen| == i && forall k :: 0 <= k < i ==> targets[k] in byTarget && chosen[k] == byTarget[targets[k]]
      invariant forall e :: e in chosen ==> e in entries
    {
      if targets[i] !in byTarget {
        assert targets[i] in targets;
        return false, [];
      }
      chosen := chosen + [byTarget[targets[i]]];
    }
    ok := true;
  }

  function Links(m: Manifest): Manifest {
    if m == [] then [] else Links(m[..|m| - 1]) + (if m[|m| - 1].how == Copy then [] else [m[|m| - 1]])
  }

  function CopiesIn(m: Manifest): Manifest {
    if m == [] then [] else CopiesIn(m[..|m| - 1]) + (if m[|m| - 1].how == Copy then [m[|m| - 1]] else [])
  }

  lemma {:induction false} SplitByMethod(m: Manifest, e: Entry)
    ensures e in Links(m) <==> e in m && e.how != Copy
    ensures e in CopiesIn(m) <==> e in m && e.how == Copy
  {
    if m != [] {
      LastOf(m);
      SplitByMethod(m[..|m| - 1], e);
    }
  }

  /** The copy targets that are there. */
  function Present(v: View, m: Manifest): seq<Path> {
    if m == [] then []
    else Present(v, m[..|m| - 1]) + (if Lstat(v, m[|m| - 1].target).Found? then [m[|m| - 1].target] else [])
  }

  lemma {:induction false} PresentIs(v: View, m: Manifest, p: Path)
    ensures p in Present(v, m) <==> exists e :: e in m && e.target == p && Lstat(v, p).Found?
  {
    if m != [] {
      PresentIs(v, m[..|m| - 1], p);
      LastOf(m);
    }
  }

  /** The link or copy of an entry is up for removal: the link as recorded, the copy whatever it is. */
  predicate Planned(v: View, e: Entry) {
    if e.how == Copy then Lstat(v, e.target).Found? else StillRecorded(v, e)
  }

  lemma PlannedLinks(entries: Manifest, v: View, p: Path)
    ensures p in RemoveTargets(Teardown(entries, v).Removes(Links(entries))) <==>
              exists e :: e in entries && e.how != Copy && e.target == p && Planned(v, e)
  {
    var job, links := Teardown(entries, v), Links(entries);
    var rs := job.Removes(links);
    RemoveTargetsAre(rs, p);
    hide Lstat, RemoveTargets, Links, Job.Removes;
    if r :| r in rs && r.Unlink? && r.entry.target == p {
      RemoveIsOf(job, links, r);
      SplitByMethod(entries, r.entry);
      assert Planned(v, r.entry);
    }
    if e :| e in entries && e.how != Copy && e.target == p && Planned(v, e) {
      SplitByMethod(entries, e);
      RemoveIsListed(job, links, e);
      assert Unlink(e).entry == e;
    }
  }

  lemma PlannedCopies(entries: Manifest, v: View, p: Path)
    ensures p in Present(v, CopiesIn(entries)) <==> exists e :: e in entries && e.how == Copy && e.target == p && Planned(v, e)
  {
    hide Lstat, Present, CopiesIn;
    PresentIs(v, CopiesIn(entries), p);
    if e :| e in CopiesIn(entries) && e.target == p && Lstat(v, p).Found? { SplitByMethod(entries, e); }
    if e :| e in entries && e.how == Copy && e.target == p && Planned(v, e) { SplitByMethod(entries, e); }
  }

  /** What a reset plans: of the entries chosen, the links that are as recorded, and the copies that are there. */
  lemma PlannedExactly(entries: Manifest, v: View, p: Path)
    ensures p in LinkTargets(entries, v) <==> exists e :: e in entries && e.how != Copy && e.target == p && Planned(v, e)
    ensures p in CopyTargetsIn(entries, v) <==> exists e :: e in entries && e.how == Copy && e.target == p && Planned(v, e)
  {
    hide Planned;
    PlannedLinks(entries, v, p);
    PlannedCopies(entries, v, p);
  }

  /** One copy gone, and after it the directories left empty. */
  function CopyGone(t: Tree, p: Path, limit: nat): Tree
    requires p != []
  {
    Trim(Pruned(t, p), Parent(p), limit)
  }

  // What reset leaves.

  ghost predicate Covers(gone: seq<Path>, q: Path) {
    exists p :: p in gone && p <= q
  }

  /** Of the tree, only what lies at or beneath a listed target went, and directories above one. */
  ghost predicate AtMost(t: Tree, u: Tree, planned: seq<Path>) {
    && (forall q :: q in u ==> q in t && u[q] == t[q])
    && (forall q :: q in t && q !in u ==> Covers(planned, q) || (t[q] == Dir && exists p :: p in planned && q < p))
  }

  ghost predicate AllGone(u: Tree, gone: seq<Path>) {
    forall p :: p in gone ==> p !in u
  }

  /** ... and every listed target did. */
  ghost predicate TakenDown(t: Tree, u: Tree, gone: seq<Path>) {
    AtMost(t, u, gone) && AllGone(u, gone)
  }

  /** No directory above a listed target is left with nothing in it. */
  ghost predicate NoneHollow(u: Tree, gone: seq<Path>) {
    forall p, d :: p in gone && d != [] && d < p && d in u && u[d] == Dir ==> !Vacant(u, d)
  }

  lemma {:induction false} TrimLeavesNoneEmpty(t: Tree, dir: Path, limit: nat)
    requires ValidTree(t) && dir in t && t[dir] == Dir && limit >= |dir|
    ensures forall d :: d != [] && d <= dir && d in Trim(t, dir, limit) ==> !Vacant(Trim(t, dir, limit), d)
    decreases |dir|
  {
    if dir != [] && Vacant(t, dir) {
      RemovalValid(t, dir);
      TrimLeavesNoneEmpty(Without(t, dir), Parent(dir), limit - 1);
      forall d | d != [] && d <= dir && d in Trim(t, dir, limit) ensures d <= Parent(dir) {
        TrimTrims(Without(t, dir), Parent(dir), limit - 1);
        SameOrAbove(d, dir);
      }
    } else {
      forall d | d != [] && d <= dir && d in t ensures !Vacant(t, d) {
        if d != dir { assert d < dir; }
      }
    }
  }

  /** One more target gone, with the directories it leaves empty. */
  lemma StillNoneHollow(u: Tree, gone: seq<Path>, p: Path)
    requires ValidTree(u) && NoneHollow(u, gone) && p != [] && Parent(p) in u && u[Parent(p)] == Dir
    ensures NoneHollow(CopyGone(u, p, |p|), gone + [p])
  {
    var v := CopyGone(u, p, |p|);
    PrunedValid(u, p);
    TrimTrims(Pruned(u, p), Parent(p), |p|);
    TrimLeavesNoneEmpty(Pruned(u, p), Parent(p), |p|);
    forall x, d | x in gone + [p] && d != [] && d < x && d in v && v[d] == Dir ensures !Vacant(v, d) {
      if d < p {
        AboveParent(d, p);
      } else {
        assert x in gone;
        var q :| q in u && d < q;
        if q !in v { StillFull(p, d, q); }
      }
    }
  }

  lemma StillFull(p: Path, d: Path, q: Path)
    requires d < q && p != [] && !(d < p) && (p <= q || q <= Parent(p))
    ensures p <= d
  {
    if p <= q { Comparable(p, d, q); }
  }

  /** Targets none of which lies above another. */
  ghost predicate Spread(ps: seq<Path>) {
    forall i, j :: 0 <= i < |ps| && 0 <= j < |ps| && i != j ==> !(ps[i] <= ps[j])
  }

  lemma StillThere(t: Tree, u: Tree, gone: seq<Path>, p: Path)
    requires ValidTree(u) && AtMost(t, u, gone) && p in t && p != [] && forall x :: x in gone ==> !(x <= p) && !(p <= x)
    ensures p in u && Parent(p) in u && u[Parent(p)] == Dir
  {
  }

  lemma PrefixFreeSnoc(init: Manifest, e: Entry)
    requires PrefixFree(init + [e])
    ensures PrefixFree(init) && forall f :: f in init ==> !(f.target <= e.target) && !(e.target <= f.target)
  {
    var m := init + [e];
    forall i, j | 0 <= i < |init| && 0 <= j < |init| && i != j ensures !(init[i].target <= init[j].target) {
      assert m[i] == init[i] && m[j] == init[j];
    }
    forall f | f in init ensures !(f.target <= e.target) && !(e.target <= f.target) {
      var k :| 0 <= k < |init| && init[k] == f;
      assert m[k] == f && m[|init|] == e;
    }
  }

  lemma SpreadSnoc(ps: seq<Path>, p: Path)
    requires Spread(ps) && forall x :: x in ps ==> !(x <= p) && !(p <= x)
    ensures Spread(ps + [p])
  {
    forall i | 0 <= i < |ps| ensures !(ps[i] <= p) && !(p <= ps[i]) { assert ps[i] in ps; }
  }

  lemma {:induction false} PresentSpread(v: View, m: Manifest)
    requires PrefixFree(m)
    ensures Spread(Present(v, CopiesIn(m)))
  {
    if m != [] {
      hide PrefixFree, Spread, Lstat;
      var init, e := m[..|m| - 1], m[|m| - 1];
      LastOf(m);
      PrefixFreeSnoc(init, e);
      PresentSpread(v, init);
      CopiesInSnoc(v, init, e);
      var before := Present(v, CopiesIn(init));
      EmptyEnd(before, []);
      forall x | x in before ensures !(x <= e.target) && !(e.target <= x) {
        PresentIs(v, CopiesIn(init), x);
        var f :| f in CopiesIn(init) && f.target == x;
        SplitByMethod(init, f);
      }
      SpreadSnoc(before, e.target);
    }
  }

  lemma CopiesInSnoc(v: View, init: Manifest, e: Entry)
    ensures Present(v, CopiesIn(init + [e]))
            == Present(v, CopiesIn(init)) + if e.how == Copy && Lstat(v, e.target).Found? then [e.target] else []
  {
    hide Lstat;
    ButLast(init, e);
    ButLast(CopiesIn(init), e);
    EmptyEnd(CopiesIn(init), []);
    EmptyEnd(Present(v, CopiesIn(init)), []);
  }

  lemma AtMostTwice(t: Tree, u: Tree, v: Tree, first: seq<Path>, second: seq<Path>)
    requires AtMost(t, u, first) && AtMost(u, v, second)
    ensures AtMost(t, v, first + second)
  {
    var gone := first + second;
    assert forall x :: x in gone <==> x in first || x in second;
    forall q | q in t && q !in v ensures Covers(gone, q) || (t[q] == Dir && exists p :: p in gone && q < p) {
      if q in u {
        if Covers(second, q) {
          var p :| p in second && p <= q;
          assert p in gone;
        } else {
          var p :| p in second && q < p;
          assert p in gone;
        }
      } else if Covers(first, q) {
        var p :| p in first && p <= q;
        assert p in gone;
      } else {
        var p :| p in first && q < p;
        assert p in gone;
      }
    }
  }

  lemma AtMostMore(t: Tree, u: Tree, some: seq<Path>, planned: seq<Path>)
    requires AtMost(t, u, some) && some <= planned
    ensures AtMost(t, u, planned)
  {
    var rest := planned[|some|..];
    assert planned == some + rest;
    AtMostTwice(t, u, u, some, rest);
  }

  lemma StaysGone(u: Tree, v: Tree, planned: seq<Path>, gone: seq<Path>)
    requires AtMost(u, v, planned) && AllGone(u, gone)
    ensures AllGone(v, gone)
  {
  }

  /** A removal of everything under `p` that stops midway. */
  lemma PartTakenDown(u: Tree, v: Tree, p: Path)
    requires (forall q :: q in v ==> q in u && v[q] == u[q]) && forall q :: q in u && q !in v ==> p <= q
    ensures AtMost(u, v, [p])
  {
    assert p in [p];
  }

  lemma CopyTakenDown(t: Tree, u: Tree, v: Tree, gone: seq<Path>, p: Path, limit: nat)
    requires ValidTree(u) && p != [] && TakenDown(t, u, gone)
    requires v == CopyGone(u, p, limit) || v == Pruned(u, p)
    ensures ValidTree(v) && TakenDown(t, v, gone + [p])
  {
    PrunedValid(u, p);
    TrimTrims(Pruned(u, p), Parent(p), limit);
    var more := gone + [p];
    assert p in more && forall x :: x in gone ==> x in more;
    forall q | q in t && q !in v ensures Covers(more, q) || (t[q] == Dir && exists x :: x in more && q < x) {
      if q !in u {
        StillTakenDown(t, gone, p, q);
      } else if q in Pruned(u, p) {
        assert q <= Parent(p) < p;
      } else {
        assert p <= q;
      }
    }
  }

  lemma StillTakenDown(t: Tree, gone: seq<Path>, p: Path, q: Path)
    requires q in t && (Covers(gone, q) || (t[q] == Dir && exists x :: x in gone && q < x))
    ensures Covers(gone + [p], q) || (t[q] == Dir && exists x :: x in gone + [p] && q < x)
  {
    if Covers(gone, q) {
      var x :| x in gone && x <= q;
      assert x in gone + [p];
    } else {
      var x :| x in gone && q < x;
      assert x in gone + [p];
    }
  }

  lemma NothingTakenDown(t: Tree)
    ensures TakenDown(t, t, [])
  {
  }

  /** One copy: removed outright, and after it the directories left empty above it. */
  method RemoveCopy(a: Applier, p: Path) returns (ok: bool)
    requires ValidTree(a.disk.tree) && p != []
    modifies a, a.disk
    ensures ValidTree(a.disk.tree) && AtMost(old(a.disk.tree), a.disk.tree, [p])
    ensures ok ==> AllGone(a.disk.tree, [p])
    ensures a.disk.faults >= old(a.disk.faults) && (a.disk.faults == old(a.disk.faults) ==> ok)
    ensures a.disk.faults == old(a.disk.faults) && Parent(p) in old(a.disk.tree) && old(a.disk.tree)[Parent(p)] == Dir ==>
              a.disk.tree == CopyGone(old(a.disk.tree), p, |p|)
  {
    ghost var u := a.disk.tree;
    NothingTakenDown(u);
    hide TakenDown, AtMost, AllGone, Trim, Prunes, Pruned;
    ok := a.disk.TryRemoveAll(p);
    if !ok {
      PartTakenDown(u, a.disk.tree, p);
      return;
    }
    ghost var limit := 0;
    if Parent(p) in a.disk.tree && a.disk.tree[Parent(p)] == Dir {
      var stopped;
      ghost var made;
      stopped, made := a.PruneEmptyAncestors(Parent(p));
      limit := |made|;
      PrunesEnd(Pruned(u, p), Parent(p), limit);
      AllTrimmed(a, u, p, made, stopped);
    }
    CopyTakenDown(u, u, a.disk.tree, [], p, limit);
    assert [] + [p] == [p];
    TakenDownIs(u, a.disk.tree, [p]);
  }

  lemma AllTrimmed(a: Applier, u: Tree, p: Path, made: seq<Event>, stopped: bool)
    requires ValidTree(u) && p != []
    requires !stopped ==> made == Prunes(Pruned(u, p), Parent(p), |Parent(p)|)
    ensures !stopped ==> Exec(Pruned(u, p), made) == CopyGone(u, p, |p|)
  {
    PrunedValid(u, p);
    a.AllPruned(Pruned(u, p), Parent(p), |p|);
    PrunesEnd(Pruned(u, p), Parent(p), |p|);
  }

  lemma MoreGone(u: Tree, v: Tree, gone: seq<Path>, p: Path)
    requires AtMost(u, v, [p]) && AllGone(u, gone)
    ensures AllGone(v, gone)
    ensures AllGone(v, [p]) ==> AllGone(v, gone + [p])
  {
  }

  /** The copies are there, and none lies above another or above or beneath what went before; which has
      left no empty directory. */
  ghost predicate Separate(t: Tree, before: seq<Path>, planned: seq<Path>) {
    && ValidTree(t) && NoneHollow(t, before) && Spread(planned)
    && (forall p :: p in planned ==> p in t && p != [])
    && (forall x, p :: x in before && p in planned ==> !(x <= p) && !(p <= x))
  }

  lemma SeparateIs(t: Tree, before: seq<Path>, planned: seq<Path>)
    ensures Separate(t, before, planned) ==> NoneHollow(t, before)
  {
  }

  lemma AtItsTurn(t: Tree, u: Tree, before: seq<Path>, planned: seq<Path>, i: nat)
    requires i < |planned| && Separate(t, before, planned) && ValidTree(u) && AtMost(t, u, planned[..i])
    ensures planned[i] != [] && Parent(planned[i]) in u && u[Parent(planned[i])] == Dir
    ensures NoneHollow(u, before + planned[..i]) ==>
              NoneHollow(CopyGone(u, planned[i], |planned[i]|), before + planned[..i + 1])
  {
    var p := planned[i];
    assert p in planned;
    forall x | x in planned[..i] ensures !(x <= p) && !(p <= x) {
      var k :| 0 <= k < i && planned[..i][k] == x;
      assert planned[k] == x;
    }
    StillThere(t, u, planned[..i], p);
    Prefix(planned, i + 1);
    SnocConcat(before, planned[..i], p);
    if NoneHollow(u, before + planned[..i]) { StillNoneHollow(u, before + planned[..i], p); }
  }

  /** The copy stage. */
  method RemoveCopies(a: Applier, planned: seq<Path>, ghost before: seq<Path>)
    returns (copies: seq<Path>, failed: Option<Path>, unreached: seq<Path>)
    requires ValidTree(a.disk.tree) && [] !in planned
    modifies a, a.disk
    ensures failed.None? ==> copies == planned && unreached == [] && TakenDown(old(a.disk.tree), a.disk.tree, planned)
    ensures failed.Some? ==> copies + [failed.value] + unreached == planned
    ensures AtMost(old(a.disk.tree), a.disk.tree, planned) && AllGone(a.disk.tree, copies)
    ensures a.disk.faults >= old(a.disk.faults) && (a.disk.faults == old(a.disk.faults) ==> failed.None?)
    ensures a.disk.faults == old(a.disk.faults) && Separate(old(a.disk.tree), before, planned) ==>
              NoneHollow(a.disk.tree, before + planned)
  {
    ghost var t := a.disk.tree;
    copies := [];
    NothingTakenDown(t);
    EmptyEnd(before, []);
    SeparateIs(t, before, planned);
    hide AtMost, AllGone, ValidTree, Separate, NoneHollow, CopyGone;
    for i := 0 to |planned|
      invariant copies == planned[..i] && ValidTree(a.disk.tree) && a.disk.faults >= old(a.disk.faults)
      invariant a.disk.faults == old(a.disk.faults) && Separate(t, before, planned) ==>
                  NoneHollow(a.disk.tree, before + planned[..i])
      invariant AtMost(t, a.disk.tree, planned[..i]) && AllGone(a.disk.tree, planned[..i])
    {
      var p := planned[i];
      assert p in planned;
      ghost var u := a.disk.tree;
      if Separate(t, before, planned) { AtItsTurn(t, u, before, planned, i); }
      var ok := RemoveCopy(a, p);
      Prefix(planned, i + 1);
      AtMostTwice(t, u, a.disk.tree, planned[..i], [p]);
      MoreGone(u, a.disk.tree, planned[..i], p);
      if !ok {
        Around(planned, i);
        AtMostMore(t, a.disk.tree, planned[..i + 1], planned);
        return copies, Some(p), planned[i + 1..];
      }
      copies := copies + [p];
    }
    Whole(planned);
    failed, unreached := None, [];
  }

  lemma TakenDownIs(t: Tree, u: Tree, gone: seq<Path>)
    requires TakenDown(t, u, gone)
    ensures AtMost(t, u, gone) && AllGone(u, gone)
  {
  }

  lemma Around<T>(s: seq<T>, i: nat)
    requires i < |s|
    ensures s[..i] + [s[i]] + s[i + 1..] == s
  {
  }

  // The link stage.

  lemma {:induction false} OnlyRemovals(t: Tree, es: seq<Event>)
    requires Lossless(t, es) && forall e :: e in es ==> e.Drop? || e.RmDir?
    ensures forall q :: q in Exec(t, es) ==> q in t && Exec(t, es)[q] == t[q]
    ensures forall e :: e in es ==> e.path !in Exec(t, es)
    ensures forall q :: q in t && q !in Exec(t, es) ==> exists e :: e in es && e.path == q && (e.RmDir? ==> t[q] == Dir)
    decreases |es|
  {
    if es != [] {
      var init, e := es[..|es| - 1], es[|es| - 1];
      assert e in es && forall x :: x in es <==> x in init || x == e;
      OnlyRemovals(t, init);
      forall q | q in t && q !in Exec(t, es) ensures exists x :: x in es && x.path == q && (x.RmDir? ==> t[q] == Dir) {
        if q in Exec(t, init) { assert e.path == q; }
      }
    }
  }

  lemma {:induction false} RemovedByDrop(es: seq<Event>, p: Path) returns (e: Event)
    requires p in Reported(es).removed
    ensures e in es && e.Drop? && e.path == p
  {
    var init, last := es[..|es| - 1], es[|es| - 1];
    if p in Reported(init).removed { e := RemovedByDrop(init, p); } else { e := last; }
  }

  lemma DropWrites(w: World, t: Tree, rs: seq<RemoveAction>, limits: seq<nat>, delta: seq<Event>, e: Event) returns (p: Path)
    requires |limits| == |rs| && forall r :: r in rs ==> r.Unlink?
    requires CutOf(delta, RunAll(w, t, DropActions(rs, limits)).events) && e in delta
    ensures p in RemoveTargets(rs) && ((e.Drop? && e.path == p) || (e.RmDir? && e.path < p))
  {
    var a := CutFrom(w, t, DropActions(rs, limits), delta, e);
    DropActionIs(rs, limits, a);
    p := a.entry.target;
    RemoveTargetsAre(rs, p);
    assert Unlink(a.entry).entry == a.entry;
  }

  lemma DropsAreLossless(w: World, t: Tree, rs: seq<RemoveAction>, limits: seq<nat>, delta: seq<Event>)
    requires ValidTree(t) && ValidWorld(w) && |limits| == |rs| && forall r :: r in rs ==> r.Unlink?
    requires CutOf(delta, RunAll(w, t, DropActions(rs, limits)).events)
    ensures Lossless(t, delta)
  {
    hide RunAll, CutOf;
    forall a | a in DropActions(rs, limits) ensures Gentle(a) { DropActionIs(rs, limits, a); }
    GentleDoNotDrift(w, t, DropActions(rs, limits));
    RunAllLegal(w, t, DropActions(rs, limits));
    RunAllLossless(w, t, DropActions(rs, limits));
    CutLegal(t, delta, RunAll(w, t, DropActions(rs, limits)).events);
  }

  lemma RemovesOnlyPlanned(w: World, t: Tree, rs: seq<RemoveAction>, limits: seq<nat>, delta: seq<Event>, q: Path)
    requires |limits| == |rs| && forall r :: r in rs ==> r.Unlink?
    requires CutOf(delta, RunAll(w, t, DropActions(rs, limits)).events)
    requires exists e :: e in delta && e.path == q && (e.RmDir? ==> q in t && t[q] == Dir)
    ensures Covers(RemoveTargets(rs), q) || (q in t && t[q] == Dir && exists p :: p in RemoveTargets(rs) && q < p)
  {
    hide RunAll, CutOf, RemoveTargets;
    var e :| e in delta && e.path == q && (e.RmDir? ==> q in t && t[q] == Dir);
    var p := DropWrites(w, t, rs, limits, delta, e);
    assert e.Drop? ==> p <= q;
  }

  lemma ReportedAreGone(t: Tree, delta: seq<Event>)
    requires forall e :: e in delta ==> e.path !in Exec(t, delta)
    ensures AllGone(Exec(t, delta), Reported(delta).removed)
  {
    hide Reported, Exec;
    forall p | p in Reported(delta).removed ensures p !in Exec(t, delta) { var e := RemovedByDrop(delta, p); }
  }

  /** Stale removal, however far it got, takes no more than planned links and emptied directories above
      them, and what it reports as removed is gone. */
  lemma DropsAtMost(w: World, t: Tree, rs: seq<RemoveAction>, limits: seq<nat>, delta: seq<Event>)
    requires ValidTree(t) && ValidWorld(w) && |limits| == |rs| && forall r :: r in rs ==> r.Unlink?
    requires CutOf(delta, RunAll(w, t, DropActions(rs, limits)).events)
    ensures AtMost(t, Exec(t, delta), RemoveTargets(rs)) && AllGone(Exec(t, delta), Reported(delta).removed)
  {
    hide *;
    DropsAreLossless(w, t, rs, limits, delta);
    OnlyDropsWrite(w, t, rs, limits, delta);
    OnlyRemovals(t, delta);
    ReportedAreGone(t, delta);
    forall q | q in t && q !in Exec(t, delta)
      ensures Covers(RemoveTargets(rs), q) || (t[q] == Dir && exists p :: p in RemoveTargets(rs) && q < p)
    {
      RemovesOnlyPlanned(w, t, rs, limits, delta, q);
    }
    AtMostIs(t, Exec(t, delta), RemoveTargets(rs));
  }

  lemma OnlyDropsWrite(w: World, t: Tree, rs: seq<RemoveAction>, limits: seq<nat>, delta: seq<Event>)
    requires |limits| == |rs| && forall r :: r in rs ==> r.Unlink?
    requires CutOf(delta, RunAll(w, t, DropActions(rs, limits)).events)
    ensures forall e :: e in delta ==> e.Drop? || e.RmDir?
  {
    hide RunAll, CutOf, DropActions, RemoveTargets;
    forall e | e in delta ensures e.Drop? || e.RmDir? { var p := DropWrites(w, t, rs, limits, delta, e); }
  }

  lemma AtMostIs(t: Tree, u: Tree, planned: seq<Path>)
    requires forall q :: q in u ==> q in t && u[q] == t[q]
    requires forall q :: q in t && q !in u ==> Covers(planned, q) || (t[q] == Dir && exists p :: p in planned && q < p)
    ensures AtMost(t, u, planned)
  {
  }

  lemma {:induction false} RemoveTargetsAre(rs: seq<RemoveAction>, p: Path)
    ensures p in RemoveTargets(rs) <==> exists r :: r in rs && r.Unlink? && r.entry.target == p
  {
    if rs != [] {
      RemoveTargetsAre(rs[..|rs| - 1], p);
      LastOf(rs);
      var init, last := rs[..|rs| - 1], rs[|rs| - 1];
      assert forall r :: r in rs <==> r in init || r == last;
    }
  }

  lemma LinksTakenDown(t: Tree, u: Tree, rs: seq<RemoveAction>)
    requires Shrunk(t, u, rs) && forall r :: r in rs ==> r.Unlink? && Live(t, r.entry)
    ensures TakenDown(t, u, RemoveTargets(rs))
  {
    var gone := RemoveTargets(rs);
    forall p | p in gone ensures p !in u { RemoveTargetsAre(rs, p); }
    forall q | q in t && q !in u ensures Covers(gone, q) || (t[q] == Dir && exists p :: p in gone && q < p) {
      if t[q] == Dir {
        var r :| r in rs && r.Unlink? && q < r.entry.target && Live(t, r.entry);
        RemoveTargetsAre(rs, r.entry.target);
      } else {
        var r :| r in rs && r.Unlink? && r.entry.target == q && Live(t, r.entry);
        RemoveTargetsAre(rs, q);
        assert q <= q;
      }
    }
  }

  lemma SweptNoneHollow(t: Tree, u: Tree, rs: seq<RemoveAction>)
    requires ValidTree(t) && Swept(t, u, LiveOnes(t, rs)) && forall r :: r in rs ==> r.Unlink? && Live(t, r.entry)
    ensures NoneHollow(u, RemoveTargets(rs))
  {
    var gone := LiveOnes(t, rs);
    forall p, d | p in RemoveTargets(rs) && d != [] && d < p && d in u && u[d] == Dir ensures !Vacant(u, d) {
      RemoveTargetsAre(rs, p);
      var r :| r in rs && r.Unlink? && r.entry.target == p;
      assert r.At() in gone;
      assert Leads(gone, d);
      assert d in t && !Hollowed(t, gone, d);
      var q :| q in t && d < q && !(q in gone || (t[q] == Dir && Leads(gone, q)));
      assert !Hollowed(t, gone, q);
      assert q in u;
    }
  }

  predicate AllForeign(entries: Manifest, v: View) {
    forall e :: e in entries ==> Foreign(v, e)
  }

  /** The teardown job: the links against an empty next manifest. */
  function Teardown(entries: Manifest, v: View): Job {
    Job(Links(entries), [], v, Options(false, ""))
  }

  lemma PlannedLinksLive(entries: Manifest, v: View)
    requires ValidTree(v.tree) && ValidWorld(v.world) && AllForeign(entries, v)
    ensures forall r :: r in Teardown(entries, v).Removes(Links(entries)) ==>
              r.Unlink? && Foreign(v, r.entry) && Live(v.tree, r.entry)
  {
    var job := Teardown(entries, v);
    forall r | r in job.Removes(Links(entries)) ensures r.Unlink? && Foreign(v, r.entry) && Live(v.tree, r.entry) {
      RemoveIsOf(job, Links(entries), r);
      SplitByMethod(entries, r.entry);
      RecordedMeansLive(v, r.entry);
    }
  }

  lemma LinkStageTakesDown(entries: Manifest, v: View, limits: seq<nat>, delta: seq<Event>)
    requires ValidTree(v.tree) && ValidWorld(v.world) && AllForeign(entries, v)
    requires var rs := Teardown(entries, v).Removes(Links(entries));
             && |limits| == |rs| && (forall r :: r in rs ==> r.Unlink?)
             && CarriedAll(v.world, v.tree, DropActions(rs, limits), true, delta)
    ensures TakenDown(v.tree, Exec(v.tree, delta), RemoveTargets(Teardown(entries, v).Removes(Links(entries))))
  {
    var rs := Teardown(entries, v).Removes(Links(entries));
    PlannedLinksLive(entries, v);
    hide Teardown, Live, Foreign, Shrunk, TakenDown;
    DropsRun(v.world, v.tree, rs, limits);
    LinksTakenDown(v.tree, Exec(v.tree, delta), rs);
  }

  method SplitEntries(entries: Manifest) returns (links: Manifest, copies: Manifest)
    ensures links == Links(entries) && copies == CopiesIn(entries)
  {
    links, copies := [], [];
    for i := 0 to |entries|
      invariant links == Links(entries[..i]) && copies == CopiesIn(entries[..i])
    {
      Prefix(entries, i + 1);
      if entries[i].how == Copy { copies := copies + [entries[i]]; } else { links := links + [entries[i]]; }
    }
    Whole(entries);
  }

  method FindCopies(disk: Disk, copies: Manifest) returns (ok: bool, targets: seq<Path>)
    ensures ok ==> targets == Present(View(disk.tree, disk.world), copies) && [] !in targets
    ensures ok <==> forall e :: e in copies ==> !Lstat(View(disk.tree, disk.world), e.target).Fault?
  {
    targets := [];
    for i := 0 to |copies|
      invariant targets == Present(disk.Sight(), copies[..i]) && [] !in targets
      invariant forall e :: e in copies[..i] ==> !Lstat(disk.Sight(), e.target).Fault?
    {
      Prefix(copies, i + 1);
      match Lstat(disk.Sight(), copies[i].target) {
        case Found(_) => targets := targets + [copies[i].target];
        case NotExist => EmptyEnd(targets, []);
        case Fault => return false, [];
      }
    }
    Whole(copies);
    ok := true;
  }

  /** What is planned is in the tree itself, not merely seen through a symlink. */
  predicate Inside(entries: Manifest, v: View) {
    forall e :: e in entries && Planned(v, e) ==> e.target in v.tree
  }

  /** Something chosen cannot be looked at. */
  predicate Unreadable(entries: Manifest, v: View) {
    exists e :: e in entries && Lstat(v, e.target).Fault?
  }

  /** The links and copies that are planned to go. */
  function LinkTargets(entries: Manifest, v: View): seq<Path> {
    RemoveTargets(Teardown(entries, v).Removes(Links(entries)))
  }

  function CopyTargetsIn(entries: Manifest, v: View): seq<Path> {
    Present(v, CopiesIn(entries))
  }

  datatype Summary = Summary(links: seq<Path>, copies: seq<Path>, failed: Option<Path>, unreached: seq<Path>)

  datatype Ending = Untaken | Preview | Aborted | Failed | TornDown

  /** What each ending of a reset says of its report and of the tree. */
  ghost predicate Accounts(entries: Manifest, v: View, ending: Ending, r: Summary, u: Tree) {
    var links, copies := LinkTargets(entries, v), CopyTargetsIn(entries, v);
    match ending
    case Untaken => u == v.tree
    case Preview => u == v.tree && r.links == links && r.copies == copies
    case Aborted => u == v.tree && r.links == links && r.copies == copies
    case Failed =>
      && r.failed.Some? && AtMost(v.tree, u, links + copies) && AllGone(u, r.links) && AllGone(u, r.copies)
      && (|| (&& r.copies == [] && r.failed.value in links
              && r.unreached == Unreached(links, (set p | p in r.links) + {r.failed.value}) + copies)
          || (&& r.copies + [r.failed.value] + r.unreached == copies
              && (AllForeign(entries, v) && Distinct(Links(entries)) ==> r.links == links)))
    case TornDown =>
      && r.copies == copies && r.unreached == [] && r.failed == None
      && AtMost(v.tree, u, links + copies) && AllGone(u, r.links) && AllGone(u, r.copies)
      && (AllForeign(entries, v) ==> AllGone(u, links))
      && (AllForeign(entries, v) && Distinct(Links(entries)) ==> r.links == links)
  }

  /** A teardown in which the system refused no call: all that is planned goes, and with it every directory
      above that is left empty. */
  ghost predicate Clean(entries: Manifest, v: View, ending: Ending, u: Tree) {
    && (AllForeign(entries, v) ==> ending == TornDown)
    && (AllForeign(entries, v) && Inside(entries, v) && PrefixFree(entries) ==>
          NoneHollow(u, LinkTargets(entries, v) + CopyTargetsIn(entries, v)))
  }

  lemma TeardownIs(entries: Manifest, v: View)
    ensures Teardown(entries, v).prev == Links(entries) && Teardown(entries, v).view == v
    ensures ValidTree(v.tree) && ValidWorld(v.world) ==> Teardown(entries, v).Valid()
  {
  }

  lemma TeardownPlan(job: Job, computed: Computed)
    requires computed == job.Compute()
    ensures computed.Planned? <==> job.Readable()
    ensures computed.Planned? ==> computed.plan.remove == job.Removes(job.prev) && forall r :: r in computed.plan.remove ==> r.Unlink?
  {
    hide Job.Judge, Job.Leave;
    RemovesUnlink(job, job.prev);
  }

  lemma EmptyStart<T>(s: seq<T>)
    ensures [] + s == s
  {
  }

  lemma LinkStageDone(a: Applier, entries: Manifest, v: View, limits: seq<nat>, delta: seq<Event>)
    requires ValidTree(v.tree) && ValidWorld(v.world) && a.disk.world == v.world
    requires var rs := Teardown(entries, v).Removes(Links(entries));
             && |limits| == |rs| && (forall r :: r in rs ==> r.Unlink?)
             && a.Reached([], v.tree, DropActions(rs, limits), true, delta)
    ensures ValidTree(a.disk.tree)
    ensures AllForeign(entries, v) ==>
              TakenDown(v.tree, a.disk.tree, RemoveTargets(Teardown(entries, v).Removes(Links(entries))))
  {
    a.RunningIsSound();
    hide Teardown, Foreign, TakenDown, CarriedAll;
    if AllForeign(entries, v) { LinkStageTakesDown(entries, v, limits, delta); }
  }

  lemma NothingToAccount(entries: Manifest, v: View, r: Summary)
    ensures Accounts(entries, v, Untaken, r, v.tree)
    ensures r.links == LinkTargets(entries, v) && r.copies == CopyTargetsIn(entries, v) ==>
              Accounts(entries, v, Preview, r, v.tree) && Accounts(entries, v, Aborted, r, v.tree)
  {
    hide *;
    AccountsIs(entries, v, Untaken, r, v.tree);
    AccountsIs(entries, v, Preview, r, v.tree);
    AccountsIs(entries, v, Aborted, r, v.tree);
  }

  lemma AccountsIs(entries: Manifest, v: View, ending: Ending, r: Summary, u: Tree)
    ensures ending == Untaken && u == v.tree ==> Accounts(entries, v, ending, r, u)
    ensures var links, copies := LinkTargets(entries, v), CopyTargetsIn(entries, v);
            && (ending in {Preview, Aborted} && u == v.tree && r.links == links && r.copies == copies ==>
                  Accounts(entries, v, ending, r, u))
            && (ending == Failed && r.failed.Some?
                && AtMost(v.tree, u, links + copies) && AllGone(u, r.links) && AllGone(u, r.copies)
                && (|| (&& r.copies == [] && r.failed.value in links
                        && r.unreached == Unreached(links, (set p | p in r.links) + {r.failed.value}) + copies)
                    || (&& r.copies + [r.failed.value] + r.unreached == copies
                        && (AllForeign(entries, v) && Distinct(Links(entries)) ==> r.links == links))) ==>
                  Accounts(entries, v, ending, r, u))
            && (ending == TornDown && r.copies == copies && r.unreached == [] && r.failed == None
                && AtMost(v.tree, u, links + copies) && AllGone(u, r.links) && AllGone(u, r.copies)
                && (AllForeign(entries, v) ==> AllGone(u, links))
                && (AllForeign(entries, v) && Distinct(Links(entries)) ==> r.links == links) ==>
                  Accounts(entries, v, ending, r, u))
  {
    hide AtMost, AllGone, LinkTargets, CopyTargetsIn, Unreached, AllForeign, Distinct;
  }

  lemma LinkTargetsAre(entries: Manifest, v: View)
    ensures LinkTargets(entries, v) == RemoveTargets(Teardown(entries, v).Removes(Links(entries)))
    ensures CopyTargetsIn(entries, v) == Present(v, CopiesIn(entries))
  {
  }

  /** Nothing is planned against an empty next manifest but removals: planning fails only where a link's
      target cannot be looked at. */
  lemma TeardownReadable(entries: Manifest, v: View)
    ensures Teardown(entries, v).Readable() <==> forall e :: e in Links(entries) ==> !Lstat(v, e.target).Fault?
  {
    hide Lstat;
    var job := Teardown(entries, v);
    forall e | e in Links(entries) ensures job.Leave(e).Obscured? <==> Lstat(v, e.target).Fault? {
      SplitByMethod(entries, e);
      assert e.target !in job.NextBy() && e.target !in job.Marks(job.next);
    }
  }

  lemma UnreadableIs(entries: Manifest, v: View)
    ensures Unreadable(entries, v) <==> !Teardown(entries, v).Readable() || exists e :: e in CopiesIn(entries) && Lstat(v, e.target).Fault?
  {
    hide Lstat, Job.Readable;
    TeardownReadable(entries, v);
    if e :| e in entries && Lstat(v, e.target).Fault? { SplitByMethod(entries, e); }
    if e :| e in CopiesIn(entries) && Lstat(v, e.target).Fault? { SplitByMethod(entries, e); }
    if e :| e in Links(entries) && Lstat(v, e.target).Fault? { SplitByMethod(entries, e); }
  }

  /** Every name given is that of an entry. */
  predicate AllKnown(prev: Manifest, targets: seq<Path>) {
    forall t :: t in targets ==> t in ByTarget(prev)
  }

  /** Reset, from the recorded manifest to the account of what went. */
  method TearDown(disk: Disk, prev: Manifest, targets: seq<Path>, dryRun: bool, confirms: bool)
    returns (ending: Ending, r: Summary, ghost entries: Manifest)
    requires ValidTree(disk.tree) && ValidWorld(disk.world)
    modifies disk
    // What it is about.
    ensures targets == [] ==> entries == prev
    ensures targets != [] && AllKnown(prev, targets) ==>
              |entries| == |targets| && forall i :: 0 <= i < |targets| ==> entries[i] == ByTarget(prev)[targets[i]]
    // Which ending it is.
    ensures ending == Untaken <==> !AllKnown(prev, targets) || Unreadable(entries, View(old(disk.tree), disk.world))
    ensures ending != Untaken ==> (ending == Preview <==> dryRun)
    ensures ending !in {Untaken, Preview} ==> (ending == Aborted <==> !confirms)
    ensures ending in {Failed, TornDown} && disk.faults == old(disk.faults) ==>
              Clean(entries, View(old(disk.tree), disk.world), ending, disk.tree)
    // What it leaves.
    ensures Accounts(entries, View(old(disk.tree), disk.world), ending, r, disk.tree)
  {
    hide *;
    ghost var v := View(disk.tree, disk.world);
    r := Summary([], [], None, []);
    var chosen, ok;
    ok, chosen := SelectEntries(prev, targets);
    KnownIs(prev, targets);
    entries := if ok then chosen else prev;
    NothingToAccount(entries, v, r);
    UnreadableIs(entries, v);
    if !ok { return Untaken, r, entries; }
    var links, copies := SplitEntries(chosen);
    var job := Teardown(chosen, View(disk.tree, disk.world));
    TeardownIs(chosen, View(disk.tree, disk.world));
    var computed := Sessions.PlanFor(job);
    TeardownPlan(job, computed);
    if computed.ProbeFailed? { return Untaken, r, entries; }
    var rs := computed.plan.remove;
    var planned;
    ok, planned := FindCopies(disk, copies);
    if !ok { return Untaken, r, entries; }
    LinkTargetsAre(chosen, v);
    r := Summary(RemoveTargets(rs), planned, None, []);
    NothingToAccount(entries, v, r);
    if dryRun { return Preview, r, entries; }
    if !confirms { return Aborted, r, entries; }
    ending, r := TakeDown(disk, chosen, rs, planned);
  }

  lemma KnownIs(prev: Manifest, targets: seq<Path>)
    ensures AllKnown(prev, targets) <==> forall t :: t in targets ==> t in ByTarget(prev)
  {
  }

  /** The link stage, then the copy stage; what is taken down is not put back. */
  method TakeDown(disk: Disk, chosen: Manifest, rs: seq<RemoveAction>, planned: seq<Path>) returns (ending: Ending, r: Summary)
    requires ValidTree(disk.tree) && ValidWorld(disk.world) && [] !in planned && (forall r :: r in rs ==> r.Unlink?)
    requires rs == Teardown(chosen, View(disk.tree, disk.world)).Removes(Links(chosen))
    requires planned == Present(View(disk.tree, disk.world), CopiesIn(chosen))
    modifies disk
    ensures Accounts(chosen, View(old(disk.tree), disk.world), ending, r, disk.tree) && ending in {Failed, TornDown}
    ensures disk.faults == old(disk.faults) ==> Clean(chosen, View(old(disk.tree), disk.world), ending, disk.tree)
  {
    hide *;
    ghost var v, faults := View(disk.tree, disk.world), disk.faults;
    LinkTargetsAre(chosen, v);
    var a := new Applier(disk);
    Starts(a);
    ghost var delta, limits;
    var ok;
    ok, delta, limits := a.RemoveStale(rs);
    a.WithinGrows(faults, v.tree, DropActions(rs, limits), ok);
    if !ok {
      ReachedUnreached(a, v.tree, DropActions(rs, limits), delta);
      LinksAtMost(a, v, rs, limits, ok, delta);
      AtMostMore(v.tree, a.disk.tree, RemoveTargets(rs), RemoveTargets(rs) + planned);
      NoneGone(a.disk.tree);
      LinkStageGoes(a, chosen, v, limits, faults);
      BlamedIsPlanned(disk.world, v.tree, rs, limits, delta, a.failed);
      var done := (set p | p in a.report.removed) + {a.failed.value};
      a.MarkUnreached(RemoveTargets(rs), [], done);
      EmptyStart(RemoveTargets(rs));
      r := Summary(a.report.removed, [], a.failed, a.unreached + planned);
      AccountsIs(chosen, v, Failed, r, disk.tree);
      return Failed, r;
    }
    LinksAtMost(a, v, rs, limits, ok, delta);
    LinkStageDone(a, chosen, v, limits, delta);
    if AllForeign(chosen, v) && Distinct(Links(chosen)) { AllLinksRemoved(a, chosen, v, limits, delta); }
    var removed := a.report.removed;
    ghost var u := a.disk.tree;
    LinksLeaveNoneHollow(a, chosen, v, limits, delta, faults);
    var gone, failed, unreached;
    gone, failed, unreached := RemoveCopies(a, planned, RemoveTargets(rs));
    r := Summary(removed, gone, failed, unreached);
    ending := if failed.Some? then Failed else TornDown;
    AtMostTwice(v.tree, u, disk.tree, RemoveTargets(rs), planned);
    StaysGone(u, disk.tree, planned, removed);
    if AllForeign(chosen, v) {
      TakenDownIs(v.tree, u, RemoveTargets(rs));
      StaysGone(u, disk.tree, planned, RemoveTargets(rs));
    }
    AccountsIs(chosen, v, ending, r, disk.tree);
    CleanIs(chosen, v, ending, disk.tree);
  }

  lemma BlamedIsPlanned(w: World, t: Tree, rs: seq<RemoveAction>, limits: seq<nat>, delta: seq<Event>, failed: Option<Path>)
    requires |limits| == |rs| && (forall r :: r in rs ==> r.Unlink?)
    requires FailedAt(w, t, DropActions(rs, limits), delta, failed)
    ensures failed.Some? && failed.value in RemoveTargets(rs)
  {
    hide RunAll, RunOne, CutOf, DropActions;
    var i :| 0 <= i < |DropActions(rs, limits)| && FailedIn(w, t, DropActions(rs, limits), i, delta, failed);
    var a := DropActions(rs, limits)[i];
    DropActionIs(rs, limits, a);
    RemoveTargetsAre(rs, a.entry.target);
    assert Unlink(a.entry).entry == a.entry;
  }

  lemma CleanIs(entries: Manifest, v: View, ending: Ending, u: Tree)
    ensures !AllForeign(entries, v) ==> Clean(entries, v, ending, u)
    ensures (&& ending == TornDown
             && (AllForeign(entries, v) && Inside(entries, v) && PrefixFree(entries) ==>
                   NoneHollow(u, LinkTargets(entries, v) + CopyTargetsIn(entries, v)))) ==> Clean(entries, v, ending, u)
  {
    hide AllForeign, Inside, PrefixFree, NoneHollow, LinkTargets, CopyTargetsIn;
  }

  /** With no link merely seen through a symlink, stale removal fails only over a refused call. */
  lemma LinkStageGoes(a: Applier, entries: Manifest, v: View, limits: seq<nat>, faults: nat)
    requires ValidTree(v.tree) && ValidWorld(v.world) && a.disk.world == v.world
    requires var rs := Teardown(entries, v).Removes(Links(entries));
             && |limits| == |rs| && (forall r :: r in rs ==> r.Unlink?)
             && a.Within(faults, v.tree, DropActions(rs, limits), false)
    ensures a.disk.faults == faults ==> Clean(entries, v, Failed, a.disk.tree)
  {
    var rs := Teardown(entries, v).Removes(Links(entries));
    if a.disk.faults == faults && AllForeign(entries, v) {
      PlannedLinksLive(entries, v);
      hide Teardown, Live, Foreign, RunAll, Clean;
      DropsRun(v.world, v.tree, rs, limits);
      assert false;
    }
    CleanIs(entries, v, Failed, a.disk.tree);
  }

  /** Without a refused prune no directory emptied by the link stage is left; and the copies, each of them
      apart from all else that goes, still stand. */
  lemma LinksLeaveNoneHollow(a: Applier, entries: Manifest, v: View, limits: seq<nat>, delta: seq<Event>, faults: nat)
    requires ValidTree(v.tree) && ValidWorld(v.world) && a.disk.world == v.world
    requires var rs := Teardown(entries, v).Removes(Links(entries));
             && |limits| == |rs| && (forall r :: r in rs ==> r.Unlink?)
             && a.Reached([], v.tree, DropActions(rs, limits), true, delta)
             && (a.disk.faults == faults ==> Unlimited(rs, limits))
    ensures a.disk.faults == faults && AllForeign(entries, v) && Inside(entries, v) && PrefixFree(entries) ==>
              Separate(a.disk.tree, LinkTargets(entries, v), CopyTargetsIn(entries, v))
  {
    if a.disk.faults == faults && AllForeign(entries, v) && Inside(entries, v) && PrefixFree(entries) {
      var rs, u := Teardown(entries, v).Removes(Links(entries)), a.disk.tree;
      LinkTargetsAre(entries, v);
      LinksSwept(a, entries, v, limits, delta);
      PresentSpread(v, entries);
      hide *;
      a.RunningIsSound();
      CopiesApart(entries, v);
      CopiesStillThere(entries, v, u);
      SeparateOf(u, LinkTargets(entries, v), CopyTargetsIn(entries, v));
    }
  }

  lemma SeparateOf(t: Tree, before: seq<Path>, planned: seq<Path>)
    requires ValidTree(t) && NoneHollow(t, before) && Spread(planned)
    requires forall p :: p in planned ==> p in t && p != []
    requires forall x, p :: x in before && p in planned ==> !(x <= p) && !(p <= x)
    ensures Separate(t, before, planned)
  {
  }

  lemma LinksSwept(a: Applier, entries: Manifest, v: View, limits: seq<nat>, delta: seq<Event>)
    requires ValidTree(v.tree) && ValidWorld(v.world) && a.disk.world == v.world
    requires AllForeign(entries, v) && PrefixFree(entries)
    requires var rs := Teardown(entries, v).Removes(Links(entries));
             && |limits| == |rs| && (forall r :: r in rs ==> r.Unlink?) && Unlimited(rs, limits)
             && a.Reached([], v.tree, DropActions(rs, limits), true, delta)
    ensures NoneHollow(a.disk.tree, LinkTargets(entries, v)) && AtMost(v.tree, a.disk.tree, LinkTargets(entries, v))
  {
    var job := Teardown(entries, v);
    var rs := job.Removes(Links(entries));
    PlannedLinksLive(entries, v);
    LinksDistinct(entries);
    Whole(Links(entries));
    RemovesOnce(job, |Links(entries)|);
    LinkStageTakesDown(entries, v, limits, delta);
    hide Teardown, Live, Foreign, Job.Removes, RunAll, NoneHollow, AtMost, AllGone, Swept, LiveOnes;
    StageSweepsExactly(v.world, v.tree, rs, limits);
    SweptNoneHollow(v.tree, a.disk.tree, rs);
  }

  lemma DistinctSnoc(m: Manifest, e: Entry)
    requires Distinct(m) && forall f :: f in m ==> f.target != e.target
    ensures Distinct(m + [e])
  {
    forall i | 0 <= i < |m| ensures m[i].target != e.target { assert m[i] in m; }
  }

  lemma {:induction false} LinksDistinct(m: Manifest)
    requires PrefixFree(m)
    ensures Distinct(Links(m))
  {
    if m != [] {
      hide PrefixFree, Distinct;
      var init, e := m[..|m| - 1], m[|m| - 1];
      LastOf(m);
      PrefixFreeSnoc(init, e);
      LinksDistinct(init);
      forall f | f in Links(init) ensures f.target != e.target { SplitByMethod(init, f); }
      DistinctSnoc(Links(init), e);
      EmptyEnd(Links(init), []);
    }
  }

  lemma CopiesApart(entries: Manifest, v: View)
    requires PrefixFree(entries)
    ensures forall x, p :: x in LinkTargets(entries, v) && p in CopyTargetsIn(entries, v) ==> !(x <= p) && !(p <= x)
  {
    LinkTargetsAre(entries, v);
    hide LinkTargets, CopyTargetsIn, Planned;
    forall x, p | x in LinkTargets(entries, v) && p in CopyTargetsIn(entries, v) ensures !(x <= p) && !(p <= x) {
      PlannedExactly(entries, v, x);
      PlannedExactly(entries, v, p);
      var e :| e in entries && e.how != Copy && e.target == x;
      var f :| f in entries && f.how == Copy && f.target == p;
      EntriesApart(entries, e, f);
    }
  }

  lemma CopiesStillThere(entries: Manifest, v: View, u: Tree)
    requires Inside(entries, v) && PrefixFree(entries) && ValidTree(u) && AtMost(v.tree, u, LinkTargets(entries, v))
    ensures forall p :: p in CopyTargetsIn(entries, v) ==> p in u && p != []
  {
    LinkTargetsAre(entries, v);
    CopiesApart(entries, v);
    hide LinkTargets, CopyTargetsIn, Planned, AtMost;
    forall p | p in CopyTargetsIn(entries, v) ensures p in u && p != [] {
      PlannedExactly(entries, v, p);
      var e :| e in entries && e.how == Copy && e.target == p && Planned(v, e);
      StillThere(v.tree, u, LinkTargets(entries, v), p);
    }
  }

  lemma LinksAtMost(a: Applier, v: View, rs: seq<RemoveAction>, limits: seq<nat>, ok: bool, delta: seq<Event>)
    requires ValidTree(v.tree) && ValidWorld(v.world) && a.disk.world == v.world
    requires |limits| == |rs| && (forall r :: r in rs ==> r.Unlink?)
    requires a.Reached([], v.tree, DropActions(rs, limits), ok, delta)
    ensures AtMost(v.tree, a.disk.tree, RemoveTargets(rs)) && AllGone(a.disk.tree, a.report.removed)
  {
    hide RunAll, Exec, Reported, AtMost, AllGone;
    EmptyStart(delta);
    DropsAtMost(v.world, v.tree, rs, limits, delta);
  }

  lemma NoneGone(u: Tree)
    ensures AllGone(u, [])
  {
  }

  lemma {:induction false} ListedRemovals(rs: seq<RemoveAction>)
    ensures Removings(rs).removed == RemoveTargets(rs)
  {
    if rs != [] { ListedRemovals(rs[..|rs| - 1]); }
  }

  /** With every planned link standing as recorded, all of them are removed. */
  lemma AllLinksRemoved(a: Applier, entries: Manifest, v: View, limits: seq<nat>, delta: seq<Event>)
    requires ValidTree(v.tree) && ValidWorld(v.world) && a.disk.world == v.world
    requires AllForeign(entries, v) && Distinct(Links(entries))
    requires var rs := Teardown(entries, v).Removes(Links(entries));
             && |limits| == |rs| && (forall r :: r in rs ==> r.Unlink?)
             && a.Reached([], v.tree, DropActions(rs, limits), true, delta)
    ensures a.report.removed == RemoveTargets(Teardown(entries, v).Removes(Links(entries)))
  {
    var job := Teardown(entries, v);
    var rs := job.Removes(Links(entries));
    PlannedLinksLive(entries, v);
    Whole(Links(entries));
    RemovesOnce(job, |Links(entries)|);
    hide Teardown, Live, Foreign, Job.Removes, RunAll, Reported;
    assert EachApart(v.world, v.tree, rs);
    RemainingIs(v.tree, rs);
    DropsReported(v.world, v.tree, rs, limits);
    ListedRemovals(rs);
    EmptyStart(delta);
  }

  lemma Starts(a: Applier)
    requires a.Valid() && a.events == [] && a.failed == None && a.unreached == [] && !a.unwound
    ensures a.Running()
  {
  }

  lemma ReachedUnreached(a: Applier, t: Tree, actions: seq<Action>, delta: seq<Event>)
    requires a.Reached([], t, actions, false, delta)
    ensures a.unreached == [] && forall done: set<Path> :: Unreached([], done) == []
  {
  }
}
