/** The writes of a run, the journal they leave, and the inverse of each journal entry. */
module Steps {
  import opened Paths
  import opened Trees

  /** One write of the engine, together with what it journals and reports.
      A re-link is two writes: `Detach` (journaled) and `Relink` (covered by that journal entry). */
  datatype Event =
    | MkParent(path: Path)                             // ensureParentDir, not journaled
    | LinkNew(path: Path, dest: Path)
    | Detach(path: Path, dest: Path)                   // `dest` is what the link pointed at
    | Relink(path: Path, dest: Path)
    | Drop(path: Path, dest: Path)                     // a recorded link is removed
    | RmDir(path: Path)                                // os.Remove on what was planned as an empty directory
    | BackUp(path: Path, aside: Path)
    | SetAside(path: Path, aside: Path)                // recopy's rename of an existing copy
    | OpenCopy(path: Path)                             // journals a copy before it starts, writes nothing
    | Graft(path: Path, sub: Tree, existed: bool)      // a finished copyTree
    | GraftPart(path: Path, sub: Tree)                 // a copyTree that failed midway

  function Apply(t: Tree, e: Event): Tree {
    match e
    case MkParent(p) => t[p := Dir]
    case LinkNew(p, d) => t[p := Link(d)]
    case Detach(p, _) => Without(t, p)
    case Relink(p, d) => t[p := Link(d)]
    case Drop(p, _) => Without(t, p)
    case RmDir(p) => Without(t, p)
    case BackUp(p, a) => Moved(t, p, a)
    case SetAside(p, a) => Moved(t, p, a)
    case OpenCopy(_) => t
    case Graft(p, sub, _) => Grafted(t, p, sub)
    case GraftPart(p, sub) => Grafted(t, p, sub)
  }

  ghost predicate Room(t: Tree, p: Path) {
    p != [] && p !in t && Parent(p) in t && t[Parent(p)] == Dir
  }

  /** The operating system lets the write through. */
  ghost predicate Enabled(t: Tree, e: Event) {
    match e
    case MkParent(p) => Room(t, p)
    case LinkNew(p, _) => Room(t, p)
    case Relink(p, _) => Room(t, p)
    case Detach(p, d) => p in t && t[p] == Link(d)
    case Drop(p, d) => p in t && t[p] == Link(d)
    case RmDir(p) => p != [] && p in t && Vacant(t, p)
    case BackUp(p, a) => p != [] && a != [] && p in t && a !in t && a != p && Parent(a) == Parent(p)
    case SetAside(p, a) => p != [] && a != [] && a != p && Parent(a) == Parent(p) && CanRename(t, p, a)
    case OpenCopy(p) => p != []
    case Graft(p, sub, _) => Fits(t, p, sub) && ValidSub(sub)
    case GraftPart(p, sub) => Fits(t, p, sub) && ValidSub(sub)
  }

  /** The write destroys nothing its inverse cannot bring back: what is removed as an empty directory is
      one, a copy lands where nothing is, and no aside is overwritten. */
  predicate Spares(t: Tree, e: Event) {
    match e
    case RmDir(p) => p in t ==> t[p] == Dir
    case OpenCopy(p) => p !in t
    case Graft(p, _, _) => p !in t
    case GraftPart(p, _) => p !in t
    case SetAside(_, a) => a !in t
    case _ => true
  }

  lemma ApplyValid(t: Tree, e: Event)
    requires ValidTree(t) && Enabled(t, e)
    ensures ValidTree(Apply(t, e))
  {
    match e
    case BackUp(p, a) => MovedValid(t, p, a);
    case SetAside(p, a) => if a in t { RenamedOnto(t, p, a); } else { MovedValid(t, p, a); }
    case Graft(p, sub, _) => GraftedValid(t, p, sub);
    case GraftPart(p, sub) => GraftedValid(t, p, sub);
    case Detach(p, _) => RemovalValid(t, p);
    case Drop(p, _) => RemovalValid(t, p);
    case RmDir(p) => RemovalValid(t, p);
    case _ =>
      if !e.OpenCopy? { NothingBeneath(t, e.path); }
  }

  lemma RemovalValid(t: Tree, p: Path)
    requires ValidTree(t) && p in t && p != [] && (t[p] != Dir || Vacant(t, p))
    ensures ValidTree(Without(t, p))
  {
    if t[p] != Dir { NothingBeneath(t, p); }
    var u := Without(t, p);
    forall q | q in u && q != [] ensures Parent(q) in u && u[Parent(q)] == Dir {
      assert Parent(q) < q;
      assert !(p < q);
    }
  }

  function Exec(t: Tree, es: seq<Event>): Tree {
    if es == [] then t else Apply(Exec(t, es[..|es| - 1]), es[|es| - 1])
  }

  lemma {:induction false} ExecConcat(t: Tree, a: seq<Event>, b: seq<Event>)
    ensures Exec(t, a + b) == Exec(Exec(t, a), b)
    decreases |b|
  {
    if b == [] {
      assert a + b == a;
    } else {
      assert (a + b)[..|a + b| - 1] == a + b[..|b| - 1];
      ExecConcat(t, a, b[..|b| - 1]);
    }
  }

  /** An inverse the journal holds. */
  datatype UndoOp =
    | UndoUnlinkNew(path: Path)
    | UndoRelinkOld(path: Path, prevDest: Path)
    | UndoRemoveCopy(path: Path)
    | UndoRestoreRename(path: Path, tmp: Path)
    | UndoRestoreBackup(path: Path, tmp: Path)
    | UndoMkdir(path: Path)

  function JournalOf(e: Event): seq<UndoOp> {
    match e
    case LinkNew(p, _) => [UndoUnlinkNew(p)]
    case Detach(p, d) => [UndoRelinkOld(p, d)]
    case Drop(p, d) => [UndoRelinkOld(p, d)]
    case RmDir(p) => [UndoMkdir(p)]
    case BackUp(p, a) => [UndoRestoreBackup(p, a)]
    case SetAside(p, a) => [UndoRestoreRename(p, a)]
    case OpenCopy(p) => [UndoRemoveCopy(p)]
    case _ => []
  }

  function Journal(es: seq<Event>): seq<UndoOp> {
    if es == [] then [] else Journal(es[..|es| - 1]) + JournalOf(es[|es| - 1])
  }

  lemma JournalSnoc(init: seq<Event>, e: Event)
    ensures Journal(init + [e]) == Journal(init) + JournalOf(e)
  {
    assert (init + [e])[..|init + [e]| - 1] == init;
  }

  lemma JournalsRegroup(x: seq<UndoOp>, y: seq<UndoOp>, z: seq<UndoOp>)
    ensures (x + y) + z == x + (y + z) && x + [] == x
  {
  }

  lemma {:induction false} JournalConcat(a: seq<Event>, b: seq<Event>)
    ensures Journal(a + b) == Journal(a) + Journal(b)
    decreases |b|
  {
    if b == [] {
      assert a + b == a;
      JournalsRegroup(Journal(a), [], []);
    } else {
      var init, e := b[..|b| - 1], b[|b| - 1];
      assert b == init + [e] && a + b == (a + init) + [e];
      JournalConcat(a, init);
      hide Journal;
      JournalSnoc(init, e);
      JournalSnoc(a + init, e);
      JournalsRegroup(Journal(a), Journal(init), JournalOf(e));
    }
  }

  datatype Undone = Undone(tree: Tree, ok: bool)

  /** `os.Remove`, with absence tolerated: refused only on a directory that is not empty. */
  function RemoveIfThere(t: Tree, p: Path): Undone {
    if p !in t then Undone(t, true)
    else if Vacant(t, p) then Undone(Without(t, p), true)
    else Undone(t, false)
  }

  /** `undoOne`: best effort, a refused call leaves the tree as it is at that point. */
  function UndoOne(t: Tree, op: UndoOp): Undone
    requires op.path != []
  {
    match op
    case UndoUnlinkNew(p) => RemoveIfThere(t, p)
    case UndoRelinkOld(p, d) =>
      var r := RemoveIfThere(t, p);
      if r.ok && Parent(p) in r.tree && r.tree[Parent(p)] == Dir then Undone(r.tree[p := Link(d)], true)
      else Undone(r.tree, false)
    case UndoRemoveCopy(p) => Undone(Pruned(t, p), true)
    case UndoRestoreRename(p, tmp) => RenameBack(Pruned(t, p), tmp, p)
    case UndoRestoreBackup(p, tmp) => RenameBack(Pruned(t, p), tmp, p)
    case UndoMkdir(p) =>
      if p !in t && Parent(p) in t && t[Parent(p)] == Dir then Undone(t[p := Dir], true) else Undone(t, false)
  }

  /** `rename(tmp, p)` after `p` was cleared. */
  function RenameBack(t: Tree, tmp: Path, p: Path): Undone
    requires p != []
  {
    if tmp in t && Parent(p) in t && t[Parent(p)] == Dir then Undone(Moved(t, tmp, p), true) else Undone(t, false)
  }

  predicate Rooted(journal: seq<UndoOp>) {
    forall op :: op in journal ==> op.path != []
  }

  /** `unwind`: every inverse, last first, whatever the others came to. */
  function UndoAll(t: Tree, journal: seq<UndoOp>): Tree
    requires Rooted(journal)
    decreases |journal|
  {
    if journal == [] then t
    else
      assert journal[|journal| - 1] in journal;
      UndoAll(UndoOne(t, journal[|journal| - 1]).tree, journal[..|journal| - 1])
  }
}
