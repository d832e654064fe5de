/** Unwinding a run, wherever it stopped. */
module Undo {
  import opened Paths
  import opened Trees
  import opened Steps

  /** A write the journal does not record itself is undone by the entry recorded just before it. */
  ghost predicate Covered(journal: seq<UndoOp>, e: Event) {
    match e
    case Relink(p, _) =>
      journal != [] && journal[|journal| - 1].UndoRelinkOld? && journal[|journal| - 1].path == p
    case Graft(p, _, _) => CoveredCopy(journal, p)
    case GraftPart(p, _) => CoveredCopy(journal, p)
    case _ => true
  }

  ghost predicate CoveredCopy(journal: seq<UndoOp>, p: Path) {
    && journal != []
    && var op := journal[|journal| - 1];
       (op.UndoRemoveCopy? || op.UndoRestoreRename?) && op.path == p
  }

  /** The writes went through one after the other, from `t0` on. */
  ghost predicate Legal(t0: Tree, es: seq<Event>) {
    es == [] ||
    var init, e := es[..|es| - 1], es[|es| - 1];
    Legal(t0, init) && Enabled(Exec(t0, init), e) && Covered(Journal(init), e)
  }

  /** No write destroyed what its inverse cannot bring back. */
  ghost predicate Lossless(t0: Tree, es: seq<Event>) {
    es == [] ||
    var init, e := es[..|es| - 1], es[|es| - 1];
    Lossless(t0, init) && Spares(Exec(t0, init), e)
  }

  function Made(es: seq<Event>): set<Path> {
    set e | e in es && e.MkParent? :: e.path
  }

  /** No parent directory the run makes lies at or beneath a target or an aside. */
  ghost predicate Clear(e: Event, made: set<Path>) {
    e.MkParent? || e.Drop? || e.RmDir? ||
    forall m :: m in made ==> !(e.path <= m) && ((e.BackUp? || e.SetAside?) ==> !(e.aside <= m))
  }

  ghost predicate AllClear(es: seq<Event>, made: set<Path>) {
    forall e :: e in es ==> Clear(e, made)
  }

  /** A made directory lies strictly beneath `x`: removing `x` will meet a non-empty directory. */
  ghost predicate Pinned(x: Path, made: set<Path>) {
    exists m :: m in made && x < m
  }

  /** `u` is `t` with every node in place, save that a pinned link may have become a directory,
      and with nothing added but directories from `made`. */
  ghost predicate Over(u: Tree, t: Tree, made: set<Path>) {
    && ValidTree(u)
    && (forall x :: x in t ==>
          x in u && (u[x] == t[x] || (t[x].Link? && u[x] == Dir && Pinned(x, made))))
    && (forall x :: x in u && x !in t ==> x in made && u[x] == Dir)
  }

  lemma LegalValid(t0: Tree, es: seq<Event>)
    requires ValidTree(t0) && Legal(t0, es)
    ensures ValidTree(Exec(t0, es))
    ensures Rooted(Journal(es))
  {
    if es != [] {
      var init, e := es[..|es| - 1], es[|es| - 1];
      LegalValid(t0, init);
      ApplyValid(Exec(t0, init), e);
      assert JournalOf(e) != [] ==> e.path != [] by { assert ValidTree(Exec(t0, init)); }
    }
  }

  // One journaled write, taken back.

  lemma BackFromLinkNew(t: Tree, p: Path, d: Path, u: Tree, made: set<Path>)
    requires ValidTree(t) && Room(t, p) && !Pinned(p, made)
    requires Over(u, t[p := Link(d)], made)
    ensures Over(UndoOne(u, UndoUnlinkNew(p)).tree, t, made)
  {
    assert u[p] == Link(d);
    NothingBeneath(u, p);
    RemovalValid(u, p);
  }

  lemma BackFromRemovedLink(t: Tree, p: Path, d: Path, u: Tree, made: set<Path>)
    requires ValidTree(t) && p != [] && p in t && t[p] == Link(d)
    requires Over(u, Without(t, p), made)
    ensures Over(UndoOne(u, UndoRelinkOld(p, d)).tree, t, made)
  {
    var t1 := Without(t, p);
    assert Parent(p) in t1 && t1[Parent(p)] == Dir && u[Parent(p)] == Dir;
    NothingBeneath(t, p);
    if p in u && !Vacant(u, p) {
      var q :| q in u && p < q;
      assert q in made;
    } else {
      var r := RemoveIfThere(u, p).tree;
      if p in u { RemovalValid(u, p); }
      var w := r[p := Link(d)];
      assert ValidTree(w) by { ApplyValid(r, LinkNew(p, d)); }
    }
  }

  lemma BackFromRmDir(t: Tree, p: Path, u: Tree, made: set<Path>)
    requires ValidTree(t) && p != [] && p in t && t[p] == Dir && Vacant(t, p)
    requires Over(u, Without(t, p), made)
    ensures Over(UndoOne(u, UndoMkdir(p)).tree, t, made)
  {
    var t1 := Without(t, p);
    assert Parent(p) in t1 && u[Parent(p)] == Dir;
    if p !in u { ApplyValid(u, MkParent(p)); }
  }

  lemma PrunedValid(u: Tree, p: Path)
    requires ValidTree(u) && p != []
    ensures ValidTree(Pruned(u, p))
  {
    var w := Pruned(u, p);
    forall q | q in w && q != [] ensures Parent(q) in w && w[Parent(q)] == Dir {
      assert !(p <= Parent(q));
    }
  }

  lemma BackFromOpenCopy(t: Tree, p: Path, u: Tree, made: set<Path>)
    requires ValidTree(t) && p != [] && p !in t
    requires Over(u, t, made)
    ensures Over(Pruned(u, p), t, made)
  {
    PrunedValid(u, p);
    NothingBeneath(t, p);
    forall x | x in t ensures !(p <= x) { assert p <= x ==> p == x || p < x; }
  }

  lemma BackFromRename(t: Tree, p: Path, a: Path, u: Tree, made: set<Path>)
    requires ValidTree(t) && Enabled(t, BackUp(p, a))
    requires forall m :: m in made ==> !(p <= m) && !(a <= m)
    requires Over(u, Moved(t, p, a), made)
    ensures Over(RenameBack(Pruned(u, p), a, p).tree, t, made)
  {
    MovedValid(t, p, a);
    MovedAt(t, p, a);
    var t1, v := Moved(t, p, a), Pruned(u, p);
    PrunedValid(u, p);
    assert a in t1 by { assert Rebase(a, a, p) == p; }
    assert a in v && p !in v;
    assert Parent(p) in t1 && t1[Parent(p)] == Dir by { assert !(p <= Parent(p)) && !(a <= Parent(p)); }
    assert Parent(p) in v && v[Parent(p)] == Dir by { assert !(p <= Parent(p)); }
    MovedValid(v, a, p);
    MovedAt(v, a, p);
    var w := Moved(v, a, p);
    assert RenameBack(v, a, p).tree == w;
    forall x | x in t
      ensures x in w && (w[x] == t[x] || (t[x].Link? && w[x] == Dir && Pinned(x, made)))
    {
      if p <= x {
        BackUnderAside(t, p, a, u, x, made);
      } else {
        assert !(a <= x);
        assert x in t1 && t1[x] == t[x] && x in v && v[x] == u[x];
        assert x in w && w[x] == v[x];
      }
    }
    forall x | x in w && x !in t ensures x in made && w[x] == Dir {
      if p <= x {
        RebaseBack(x, p, a);
      } else {
        assert x in v;
        assert !(a <= x);
        assert x !in t1;
      }
    }
  }

  lemma BackUnderAside(t: Tree, p: Path, a: Path, u: Tree, x: Path, made: set<Path>)
    requires ValidTree(t) && Enabled(t, BackUp(p, a))
    requires forall m :: m in made ==> !(p <= m) && !(a <= m)
    requires Over(u, Moved(t, p, a), made)
    requires x in t && p <= x && !(p <= a) && !(a <= p)
    requires ValidTree(Pruned(u, p)) && a in Pruned(u, p) && p !in Pruned(u, p)
    requires forall q :: q in t ==> !(a <= q)
    requires forall q :: q in Pruned(u, p) ==> !(p <= q)
    ensures x in Moved(Pruned(u, p), a, p) && Moved(Pruned(u, p), a, p)[x] == t[x]
  {
    var v := Pruned(u, p);
    MovedAt(t, p, a);
    MovedAt(v, a, p);
    var y := Rebase(x, p, a);
    RebaseBack(x, p, a);
    assert y in Moved(t, p, a) && Moved(t, p, a)[y] == t[x];
    assert !Pinned(y, made) by {
      forall m | m in made && y < m ensures false {}
    }
    assert u[y] == t[x];
    assert !(p <= y) by { if p <= y { Comparable(p, a, y); } }
    assert y in v && v[y] == t[x];
  }

  /** What a covered write put on the disk makes no difference to the inverse that covers it. */
  lemma RelinkIsAbsorbed(t: Tree, p: Path, d: Path, was: Path, u: Tree, made: set<Path>)
    requires ValidTree(t) && Room(t, p) && !Pinned(p, made)
    requires Over(u, t[p := Link(d)], made)
    ensures Over(Without(u, p), t, made)
    ensures UndoOne(Without(u, p), UndoRelinkOld(p, was)) == UndoOne(u, UndoRelinkOld(p, was))
  {
    assert u[p] == Link(d);
    NothingBeneath(u, p);
    RemovalValid(u, p);
  }

  lemma PrunedTwice(u: Tree, p: Path)
    ensures Pruned(Pruned(u, p), p) == Pruned(u, p)
  {
  }

  lemma GraftIsAbsorbed(t: Tree, p: Path, sub: Tree, u: Tree, made: set<Path>)
    requires ValidTree(t) && Room(t, p)
    requires Over(u, Grafted(t, p, sub), made)
    ensures Over(Pruned(u, p), t, made)
  {
    var v, g := Pruned(u, p), Grafted(t, p, sub);
    PrunedValid(u, p);
    NothingBeneath(t, p);
    GraftedAt(t, p, sub);
    forall x | x in t
      ensures x in v && (v[x] == t[x] || (t[x].Link? && v[x] == Dir && Pinned(x, made)))
    {
      assert !(p <= x) by { assert p <= x ==> p == x || p < x; }
      assert x in g && g[x] == t[x];
    }
    forall x | x in v && x !in t ensures x in made && v[x] == Dir {
      assert x in u && !(p <= x);
      assert x !in g;
    }
  }

  /** The journal of a run, unwound from any tree over the one the run reached, gives a tree over
      the one it began with. */
  lemma {:induction false} UnwindFrom(t0: Tree, es: seq<Event>, u: Tree, made: set<Path>)
    requires ValidTree(t0) && Legal(t0, es) && Lossless(t0, es) && AllClear(es, made) && Made(es) <= made
    requires Over(u, Exec(t0, es), made)
    ensures Rooted(Journal(es))
    ensures Over(UndoAll(u, Journal(es)), t0, made)
    decreases |es|
  {
    LegalValid(t0, es);
    if es != [] {
      var init, e := es[..|es| - 1], es[|es| - 1];
      assert e in es && AllClear(init, made) && Made(init) <= made;
      LegalValid(t0, init);
      var back := StepBack(Exec(t0, init), Journal(init), e, u, made);
      UnwindFrom(t0, init, back, made);
    }
  }

  lemma NotPinned(p: Path, made: set<Path>)
    requires forall m :: m in made ==> !(p <= m)
    ensures !Pinned(p, made)
  {
  }

  /** One step of the induction: a tree over the state before `e` from which the rest of the journal
      leads to the same end. */
  lemma StepBack(t: Tree, journal: seq<UndoOp>, e: Event, u: Tree, made: set<Path>) returns (back: Tree)
    requires ValidTree(t) && Enabled(t, e) && Spares(t, e) && Covered(journal, e) && Rooted(journal)
    requires Clear(e, made) && (e.MkParent? ==> e.path in made)
    requires Over(u, Apply(t, e), made)
    ensures Rooted(journal + JournalOf(e))
    ensures Over(back, t, made)
    ensures UndoAll(back, journal) == UndoAll(u, journal + JournalOf(e))
    ensures forall m :: m in made && m in u && !(e.Drop? && e.path == m) ==> m in back
  {
    var all := journal + JournalOf(e);
    if e.MkParent? {
      back := u;
      assert all == journal;
    } else if e.Relink? || e.Graft? || e.GraftPart? {
      back := StepBackCovered(t, journal, e, u, made);
      assert all == journal;
    } else {
      StepBackJournaled(t, e, u, made);
      var op := JournalOf(e)[0];
      assert all[|all| - 1] == op && all[..|all| - 1] == journal;
      back := UndoOne(u, op).tree;
      KeepsMade(t, e, u, made);
    }
  }

  lemma KeepsMade(t: Tree, e: Event, u: Tree, made: set<Path>)
    requires ValidTree(t) && Enabled(t, e) && Spares(t, e)
    requires Clear(e, made) && |JournalOf(e)| == 1 && JournalOf(e)[0].path != []
    requires Over(u, Apply(t, e), made)
    ensures forall m :: m in made && m in u && !(e.Drop? && e.path == m) ==>
              m in UndoOne(u, JournalOf(e)[0]).tree
  {
    if e.BackUp? || e.SetAside? {
      var p, a := e.path, e.aside;
      MovedValid(t, p, a);
      MovedAt(t, p, a);
      var v := Pruned(u, p);
      assert p !in v;
      forall q | q in v ensures !(p <= q) {}
      MovedAt(v, a, p);
    }
  }

  lemma StepBackJournaled(t: Tree, e: Event, u: Tree, made: set<Path>)
    requires ValidTree(t) && Enabled(t, e) && Spares(t, e) && Clear(e, made) && |JournalOf(e)| == 1
    requires Over(u, Apply(t, e), made)
    ensures JournalOf(e)[0].path != []
    ensures Over(UndoOne(u, JournalOf(e)[0]).tree, t, made)
  {
    match e
    case LinkNew(p, d) =>
      NotPinned(p, made);
      BackFromLinkNew(t, p, d, u, made);
    case Detach(p, d) => BackFromRemovedLink(t, p, d, u, made);
    case Drop(p, d) => BackFromRemovedLink(t, p, d, u, made);
    case RmDir(p) => BackFromRmDir(t, p, u, made);
    case OpenCopy(p) => BackFromOpenCopy(t, p, u, made);
    case BackUp(p, a) => BackFromRename(t, p, a, u, made);
    case SetAside(p, a) => BackFromRename(t, p, a, u, made);
  }

  lemma StepBackCovered(t: Tree, journal: seq<UndoOp>, e: Event, u: Tree, made: set<Path>) returns (back: Tree)
    requires ValidTree(t) && Enabled(t, e) && Spares(t, e) && Clear(e, made) && Covered(journal, e) && Rooted(journal)
    requires e.Relink? || e.Graft? || e.GraftPart?
    requires Over(u, Apply(t, e), made)
    ensures Over(back, t, made)
    ensures UndoAll(back, journal) == UndoAll(u, journal)
    ensures forall m :: m in made && m in u ==> m in back
  {
    var op := journal[|journal| - 1];
    assert op in journal;
    match e
    case Relink(p, d) =>
      NotPinned(p, made);
      RelinkIsAbsorbed(t, p, d, op.prevDest, u, made);
      back := Without(u, p);
    case Graft(p, sub, _) =>
      GraftIsAbsorbed(t, p, sub, u, made);
      PrunedTwice(u, p);
      back := Pruned(u, p);
    case GraftPart(p, sub) =>
      GraftIsAbsorbed(t, p, sub, u, made);
      PrunedTwice(u, p);
      back := Pruned(u, p);
  }

  /** A path that is not there at the start and is made as a parent never holds a link. */
  lemma {:induction false} MadeIsNoLink(t0: Tree, es: seq<Event>, m: Path, made: set<Path>)
    requires ValidTree(t0) && Legal(t0, es) && AllClear(es, made) && m in made && m !in t0
    ensures m in Exec(t0, es) ==> Exec(t0, es)[m] == Dir
    decreases |es|
  {
    if es != [] {
      var init, e := es[..|es| - 1], es[|es| - 1];
      assert e in es && AllClear(init, made);
      MadeIsNoLink(t0, init, m, made);
      LegalValid(t0, init);
      var t := Exec(t0, init);
      if e.BackUp? || e.SetAside? {
        MovedElsewhere(t, e.path, e.aside);
      } else if e.Graft? || e.GraftPart? {
        GraftedAt(t, e.path, e.sub);
      }
    }
  }

  lemma {:induction false} MadeSurvives(t0: Tree, es: seq<Event>, u: Tree, m: Path, made: set<Path>)
    requires ValidTree(t0) && Legal(t0, es) && Lossless(t0, es) && AllClear(es, made) && Made(es) <= made
    requires Over(u, Exec(t0, es), made) && m in made && m !in t0
    ensures Rooted(Journal(es))
    ensures m in u || m in Made(es) ==> m in UndoAll(u, Journal(es))
    decreases |es|
  {
    LegalValid(t0, es);
    if es != [] {
      var init, e := es[..|es| - 1], es[|es| - 1];
      assert e in es && AllClear(init, made) && Made(init) <= made;
      assert es == init + [e];
      LegalValid(t0, init);
      MadeIsNoLink(t0, init, m, made);
      var back := StepBack(Exec(t0, init), Journal(init), e, u, made);
      MadeSurvives(t0, init, back, m, made);
      assert m in Made(es) ==> m in Made(init) || (e.MkParent? && e.path == m);
    }
  }

  /** `r` is `t` put back: every node is there, nothing is new but directories from `made`, and exactly
      the links with a made directory strictly beneath them are directories now. */
  ghost predicate PutBack(t: Tree, r: Tree, made: set<Path>) {
    && ValidTree(r)
    && (forall x :: x in t ==> x in r && (r[x] == t[x] || r[x] == Dir))
    && (forall x :: x in t ==> (r[x] == t[x] <==> !(t[x].Link? && Pinned(x, made))))
    && (forall x :: x in r && x !in t ==> x in made && r[x] == Dir)
  }

  /** Unwinding a run that stopped anywhere puts every node back at its path and leaves nothing new
      but the parent directories made -- save for exactly one kind of node: a link the run removed and
      then made a directory strictly beneath. Such a link is never put back. */
  lemma UndoIsExact(t0: Tree, es: seq<Event>)
    requires ValidTree(t0) && Legal(t0, es) && Lossless(t0, es) && AllClear(es, Made(es))
    ensures Rooted(Journal(es))
    ensures PutBack(t0, UndoAll(Exec(t0, es), Journal(es)), Made(es))
  {
    var made := Made(es);
    LegalValid(t0, es);
    var u := Exec(t0, es);
    UnwindFrom(t0, es, u, made);
    var r := UndoAll(u, Journal(es));
    forall x | x in t0 && t0[x].Link? && Pinned(x, made) ensures r[x] == Dir {
      var m :| m in made && x < m;
      NothingBeneath(t0, x);
      MadeSurvives(t0, es, u, m, made);
      AncestorsAreDirs(r, m, x);
    }
  }
}
